/** The services of `AnchorServices` take only steps of the state machine of `AnchorWorkers`, so what is proved of every
    interleaving holds of them. */
module AnchorRefinement {
  import opened Common
  import opened AnchorTables
  import opened AnchorWorkers
  import opened AnchorProofs
  import opened AnchorServices

  // ----- runs by their traces -----

  ghost predicate StepAt(steps: seq<Step>, trace: seq<State>, i: nat) {
    i < |steps| && i + 1 < |trace| && Enabled(trace[i], steps[i]) && Apply(trace[i], steps[i]) == trace[i + 1]
  }

  ghost predicate Traces(s: State, steps: seq<Step>, end: State, trace: seq<State>) {
    && |trace| == |steps| + 1 && trace[0] == s && trace[|steps|] == end
    && forall i: nat :: i < |steps| ==> StepAt(steps, trace, i)
  }

  /** The steps can be taken one after the other and lead there. */
  ghost predicate Leads(s: State, steps: seq<Step>, end: State) {
    exists trace :: Traces(s, steps, end, trace)
  }

  lemma {:induction false} TraceIsARun(s: State, steps: seq<Step>, trace: seq<State>, n: nat)
    requires |trace| == |steps| + 1 && trace[0] == s && n <= |steps|
    requires forall i: nat :: i < |steps| ==> StepAt(steps, trace, i)
    ensures Possible(s, steps[..n]) && After(s, steps[..n]) == trace[n]
  {
    if n == 0 {
    } else {
      TraceIsARun(s, steps, trace, n - 1);
      assert StepAt(steps, trace, n - 1);
      assert steps[..n][..n - 1] == steps[..n - 1];
    }
  }

  lemma {:induction false} LeadsIsARun(s: State, steps: seq<Step>, end: State)
    requires Leads(s, steps, end)
    ensures Possible(s, steps) && After(s, steps) == end
  {
    var trace :| Traces(s, steps, end, trace);
    TraceIsARun(s, steps, trace, |steps|);
    assert steps[..|steps|] == steps;
  }

  lemma {:induction false} NoStepLeads(s: State)
    ensures Leads(s, [], s)
  {
    assert Traces(s, [], s, [s]);
  }

  lemma {:induction false} StepLeads(s: State, step: Step)
    requires Enabled(s, step)
    ensures Leads(s, [step], Apply(s, step))
  {
    var trace := [s, Apply(s, step)];
    assert StepAt([step], trace, 0);
    assert Traces(s, [step], Apply(s, step), trace);
  }

  lemma {:induction false} LeadsJoin(s: State, first: seq<Step>, mid: State, second: seq<Step>, end: State)
    requires Leads(s, first, mid) && Leads(mid, second, end)
    ensures Leads(s, first + second, end)
  {
    var a :| Traces(s, first, mid, a);
    var b :| Traces(mid, second, end, b);
    var steps, trace := first + second, a + b[1..];
    forall i: nat | i < |steps| ensures StepAt(steps, trace, i) {
      if i < |first| {
        assert StepAt(first, a, i);
      } else {
        assert StepAt(second, b, i - |first|);
      }
    }
    assert Traces(s, steps, end, trace);
  }

  // ----- the anchor queue -----

  /** The accesses one turn of the anchoring loop makes. */
  function AnchoringSteps(w: nat, chain: string, answer: Answer): seq<Step> {
    match answer
    case Accepted(txId) => [WriteAnchored(w, txId)]
    case Refused(message) => if LacksFunds(message) then [WriteReturned(w)] else [WriteQueued(w, chain), WriteMarked(w)]
  }

  lemma {:induction false} MarkingTurn(s: State, w: nat, work: Work)
    requires Working(s.anchors, w, false) && s.anchors[w].todo[0] == work.event.id
    requires work.event.id in s.tables.events && s.tables.events[work.event.id].tenantId == work.event.tenantId
    ensures Enabled(s, WriteQueued(w, work.chain))
    ensures var queued := Apply(s, WriteQueued(w, work.chain));
            && Enabled(queued, WriteMarked(w))
            && var marked := Apply(queued, WriteMarked(w));
               && marked.tables == Tables(MarkForRetry(s.tables.events, work.event.id),
                    s.tables.pending + [NewPending(work.event.tenantId, work.event.id, ANCHOR, work.chain)])
               && marked.anchors == s.anchors[w := NextEvent(s.anchors[w])] && marked.retriers == s.retriers
  {
    var queued := Apply(s, WriteQueued(w, work.chain));
    assert queued.anchors == s.anchors[w := s.anchors[w].(queued := true)];
    assert Apply(queued, WriteMarked(w)).anchors == s.anchors[w := NextEvent(s.anchors[w])];
  }

  /** One turn of the anchoring loop is a run of one or two steps: it leaves what `AnchorOne` leaves. */
  lemma {:induction false} AnchoringTurnIsARun(s: State, w: nat, work: Work, answer: Answer) returns (end: State)
    requires Working(s.anchors, w, false) && s.anchors[w].todo[0] == work.event.id
    requires work.event.id in s.tables.events && s.tables.events[work.event.id].tenantId == work.event.tenantId
    requires answer.Accepted? ==> ChainId(answer.txId)
    ensures Leads(s, AnchoringSteps(w, work.chain, answer), end)
    ensures end.tables == ServeOne(s.tables, work, answer)
    ensures end.anchors == s.anchors[w := NextEvent(s.anchors[w])] && end.retriers == s.retriers
  {
    match answer {
      case Accepted(txId) =>
        StepLeads(s, WriteAnchored(w, txId));
        end := Apply(s, WriteAnchored(w, txId));
      case Refused(message) =>
        if LacksFunds(message) {
          StepLeads(s, WriteReturned(w));
          end := Apply(s, WriteReturned(w));
        } else {
          MarkingTurn(s, w, work);
          var queued := Apply(s, WriteQueued(w, work.chain));
          end := Apply(queued, WriteMarked(w));
          StepLeads(s, WriteQueued(w, work.chain));
          StepLeads(queued, WriteMarked(w));
          LeadsJoin(s, [WriteQueued(w, work.chain)], queued, [WriteMarked(w)], end);
          assert AnchoringSteps(w, work.chain, answer) == [WriteQueued(w, work.chain)] + [WriteMarked(w)];
        }
    }
  }

  function EventIds(works: seq<Work>): seq<string> {
    seq(|works|, i requires 0 <= i < |works| => works[i].event.id)
  }

  /** The claiming transaction is one step; in which order the worker takes up what it claimed is its own affair. */
  lemma {:induction false} ClaimIsAStep(s: State, w: nat, ids: seq<string>, tenant: Option<string>,
                                        asset: Option<string>, chainOf: Claimed -> string, works: seq<Work>)
    requires Listed(s.tables.events, ids) && (w in s.anchors ==> s.anchors[w].todo == [])
    requires multiset(works) == multiset(Assigned(Selected(s.tables.events, ids, tenant, asset), chainOf))
    ensures var step := ClaimBatch(w, EventIds(works));
            && Enabled(s, step)
            && EventsAfter(s, step) == Claim(s.tables.events, IdsOf(Selected(s.tables.events, ids, tenant, asset)))
    ensures forall i :: 0 <= i < |works| ==>
              && works[i].event.id in s.tables.events
              && works[i].event.tenantId == s.tables.events[works[i].event.id].tenantId
  {
    SetOfEventIds(works);
    var batch := Selected(s.tables.events, ids, tenant, asset);
    SelectedAreClaimable(s.tables.events, ids, tenant, asset);
    RegroupedWork(batch, chainOf, works);
  }

  lemma {:induction false} SetOfEventIds(works: seq<Work>)
    ensures (set id <- EventIds(works)) == WorkIds(works)
  {
    forall i | 0 <= i < |works| ensures works[i].event.id in EventIds(works) {
      assert EventIds(works)[i] == works[i].event.id;
    }
  }

  /** Anchoring leaves an event with its tenant. */
  lemma {:induction false} ServingKeepsTenants(tables: Tables, works: seq<Work>, answers: string -> Answer)
    ensures forall id <- tables.events ::
            ServeAll(tables, works, answers).events[id].tenantId
            == tables.events[id].tenantId
  {
    if works == [] {
    } else {
      ServingKeepsTenants(tables, works[..|works| - 1], answers);
    }
  }

  predicate AnswersAreReal(works: seq<Work>, answers: string -> Answer) {
    forall i :: 0 <= i < |works| ==> (answers(works[i].event.id).Accepted? ==> ChainId(answers(works[i].event.id).txId))
  }

  /** The state has a worker that is about to work off these events, each with its own tenant. */
  predicate ReadyFor(s: State, w: nat, works: seq<Work>) {
    && w in s.anchors && s.anchors[w] == AnchorWorker(EventIds(works), false)
    && forall i :: 0 <= i < |works| ==>
         && works[i].event.id in s.tables.events
         && s.tables.events[works[i].event.id].tenantId == works[i].event.tenantId
  }

  /** The worker has worked off the first n events of its batch and nothing else has happened. */
  ghost predicate Serving(s: State, now: State, w: nat, works: seq<Work>, answers: string -> Answer, n: nat)
    requires n <= |works|
  {
    && now.tables == ServeAll(s.tables, works[..n], answers)
    && now.anchors == s.anchors[w := AnchorWorker(EventIds(works)[n..], false)]
    && now.retriers == s.retriers
  }

  lemma {:induction false} TurnIsReady(s: State, now: State, w: nat, works: seq<Work>, answers: string -> Answer,
                                       n: nat)
    requires ReadyFor(s, w, works) && n < |works| && Serving(s, now, w, works, answers, n)
    ensures Working(now.anchors, w, false) && now.anchors[w].todo[0] == works[n].event.id
    ensures works[n].event.id in now.tables.events && now.tables.events[works[n].event.id].tenantId
            == works[n].event.tenantId
  {
    ServingKeepsTenants(s.tables, works[..n], answers);
    assert EventIds(works)[n..][0] == works[n].event.id;
  }

  lemma {:induction false} TurnServes(s: State, now: State, next: State, w: nat, works: seq<Work>,
                                      answers: string -> Answer, n: nat)
    requires n < |works| && Serving(s, now, w, works, answers, n)
    requires next.tables == ServeOne(now.tables, works[n], answers(works[n].event.id)) && next.retriers == now.retriers
    requires w in now.anchors && now.anchors[w].todo != [] && next.anchors
             == now.anchors[w := NextEvent(now.anchors[w])]
    ensures Serving(s, next, w, works, answers, n + 1)
  {
    assert works[..n + 1][..n] == works[..n];
    assert EventIds(works)[n..][1..] == EventIds(works)[n + 1..];
  }

  lemma {:induction false} TurnsAreARun(s: State, w: nat, works: seq<Work>, answers: string -> Answer, n: nat)
    returns (steps: seq<Step>, end: State)
    requires ReadyFor(s, w, works) && AnswersAreReal(works, answers) && n <= |works|
    ensures Leads(s, steps, end)
    ensures Serving(s, end, w, works, answers, n)
  {
    if n == 0 {
      steps, end := [], s;
      NoStepLeads(s);
      assert EventIds(works)[0..] == EventIds(works);
    } else {
      var before, now := TurnsAreARun(s, w, works, answers, n - 1);
      var work := works[n - 1];
      TurnIsReady(s, now, w, works, answers, n - 1);
      end := AnchoringTurnIsARun(now, w, work, answers(work.event.id));
      TurnServes(s, now, end, w, works, answers, n - 1);
      var turn := AnchoringSteps(w, work.chain, answers(work.event.id));
      LeadsJoin(s, before, now, turn, end);
      steps := before + turn;
    }
  }

  lemma {:induction false} AllServed(s: State, now: State, w: nat, works: seq<Work>, answers: string -> Answer)
    requires Serving(s, now, w, works, answers, |works|)
    ensures now.tables == ServeAll(s.tables, works, answers)
    ensures now.anchors == s.anchors[w := AnchorWorker([], false)] && now.retriers == s.retriers
  {
    assert works[..|works|] == works && EventIds(works)[|works|..] == [];
  }

  lemma {:induction false} ClaimLeads(s: State, w: nat, ids: seq<string>, tenant: Option<string>, asset: Option<string>,
                                      chainOf: Claimed -> string, works: seq<Work>)
    returns (claim: seq<Step>, claimed: State)
    requires Listed(s.tables.events, ids) && (w in s.anchors ==> s.anchors[w].todo == [])
    requires multiset(works) == multiset(Assigned(Selected(s.tables.events, ids, tenant, asset), chainOf))
    ensures Leads(s, claim, claimed)
    ensures claimed.tables == Tables(Claim(s.tables.events, IdsOf(Selected(s.tables.events, ids, tenant, asset))),
            s.tables.pending)
    ensures claimed.anchors == s.anchors[w := AnchorWorker(EventIds(works), false)] && claimed.retriers == s.retriers
    ensures ReadyFor(claimed, w, works)
  {
    ClaimIsAStep(s, w, ids, tenant, asset, chainOf, works);
    var step := ClaimBatch(w, EventIds(works));
    StepLeads(s, step);
    claim, claimed := [step], Apply(s, step);
  }

  lemma {:induction false} ProcessQueueLeads(s: State, w: nat, ids: seq<string>, tenant: Option<string>,
                                             asset: Option<string>, chainOf: Claimed -> string, works: seq<Work>,
                                             answers: string -> Answer)
    returns (steps: seq<Step>, end: State)
    requires Listed(s.tables.events, ids) && (w in s.anchors ==> s.anchors[w].todo == [])
    requires multiset(works) == multiset(Assigned(Selected(s.tables.events, ids, tenant, asset), chainOf))
    requires AnswersAreReal(works, answers)
    ensures Leads(s, steps, end)
    ensures var batch := Selected(s.tables.events, ids, tenant, asset);
            end.tables == ServeAll(Tables(Claim(s.tables.events, IdsOf(batch)), s.tables.pending), works, answers)
    ensures end.anchors == s.anchors[w := AnchorWorker([], false)] && end.retriers == s.retriers
  {
    var claim, claimed := ClaimLeads(s, w, ids, tenant, asset, chainOf, works);
    var turns;
    turns, end := TurnsAreARun(claimed, w, works, answers, |works|);
    AllServed(claimed, end, w, works, answers);
    LeadsJoin(s, claim, claimed, turns, end);
    steps := claim + turns;
  }

  /** `processQueue` is a run of the machine: it claims its batch in the order of its groups, takes its turns, and
      leaves the tables that `AnchorServices.Database.ProcessQueue` leaves. */
  lemma {:induction false} ProcessQueueIsARun(s: State, w: nat, ids: seq<string>, tenant: Option<string>,
                                              asset: Option<string>, chainOf: Claimed -> string, works: seq<Work>,
                                              answers: string -> Answer)
    returns (steps: seq<Step>, end: State)
    requires Listed(s.tables.events, ids) && (w in s.anchors ==> s.anchors[w].todo == [])
    requires multiset(works) == multiset(Assigned(Selected(s.tables.events, ids, tenant, asset), chainOf))
    requires AnswersAreReal(works, answers)
    ensures Possible(s, steps) && After(s, steps) == end
    ensures var batch := Selected(s.tables.events, ids, tenant, asset);
            end.tables == ServeAll(Tables(Claim(s.tables.events, IdsOf(batch)), s.tables.pending), works, answers)
    ensures end.anchors == s.anchors[w := AnchorWorker([], false)] && end.retriers == s.retriers
  {
    steps, end := ProcessQueueLeads(s, w, ids, tenant, asset, chainOf, works, answers);
    LeadsIsARun(s, steps, end);
  }

  // ----- the retry worker -----

  lemma {:induction false} LockedTables(s: State, r: nat)
    requires Enabled(s, TryLock(r)) && IsLocked(s, TryLock(r))
    ensures var tx := s.retriers[r].todo[0];
            && Apply(s, TryLock(r)).tables == Tables(s.tables.events,
               s.tables.pending[tx.id := Lock(s.tables.pending[tx.id])])
            && Apply(s, TryLock(r)).retriers == s.retriers[r := s.retriers[r].(running := true)]
            && Apply(s, TryLock(r)).anchors == s.anchors && Apply(s, TryLock(r)).clock == s.clock
  {
  }

  lemma {:induction false} FinishedTables(s: State, locked: State, r: nat, outcome: Outcome)
    requires Enabled(locked, Finish(r, outcome)) && r in s.retriers && s.retriers[r].todo != []
    requires var tx := s.retriers[r].todo[0];
             && tx.id < |s.tables.pending|
             && locked.tables == Tables(s.tables.events, s.tables.pending[tx.id := Lock(s.tables.pending[tx.id])])
             && locked.retriers == s.retriers[r := s.retriers[r].(running := true)]
    ensures var tx := s.retriers[r].todo[0];
            && PendingAfter(locked, Finish(r, outcome))
               == s.tables.pending[tx.id := Settled(s.tables.events, Lock(s.tables.pending[tx.id]), tx.row, outcome,
                 locked.clock)]
            && EventsAfter(locked, Finish(r, outcome)) == EventsAfterOutcome(s.tables.events, tx.row, outcome)
            && RetriersAfter(locked, Finish(r, outcome)) == s.retriers[r := NextRow(s.retriers[r])]
  {
  }

  /** The accesses one turn of the retry loop makes: one if the row is lost to another worker, else an execution
      between. */
  function RetrySteps(r: nat, locked: bool, outcome: Outcome, ended: int): seq<Step> {
    if locked then [TryLock(r)] + [Tick(ended)] + [Finish(r, outcome)] else [TryLock(r)]
  }

  /** One turn of the retry loop, whether it gets the lock or not, is a run: it leaves what `LockAndRetry` leaves. */
  lemma {:induction false} RetryTurnIsARun(s: State, r: nat, outcome: Outcome, ended: int) returns (end: State)
    requires r in s.retriers && s.retriers[r].todo != [] && !s.retriers[r].running
    requires s.retriers[r].todo[0].id < |s.tables.pending|
    requires (outcome.Succeeded? ==> ChainId(outcome.txId)) && s.clock <= ended
    ensures var tx := s.retriers[r].todo[0];
            var p := s.tables.pending[tx.id];
            && Leads(s, RetrySteps(r, Lockable(p.status), outcome, ended), end)
            && end.retriers == s.retriers[r := NextRow(s.retriers[r])]
            && end.anchors == s.anchors
            && end.clock == (if Lockable(p.status) then ended else s.clock)
            && end.tables == if !Lockable(p.status) then s.tables
                             else Tables(EventsAfterOutcome(s.tables.events, tx.row, outcome),
                                         s.tables.pending[tx.id := Settled(s.tables.events, Lock(p), tx.row, outcome,
                                           ended)])
  {
    StepLeads(s, TryLock(r));
    var locked := Apply(s, TryLock(r));
    if IsLocked(s, TryLock(r)) {
      LockedTables(s, r);
      var later := Apply(locked, Tick(ended));
      assert later == locked.(clock := ended);
      StepLeads(locked, Tick(ended));
      LeadsJoin(s, [TryLock(r)], locked, [Tick(ended)], later);
      FinishedTables(s, later, r, outcome);
      end := Apply(later, Finish(r, outcome));
      StepLeads(later, Finish(r, outcome));
      LeadsJoin(s, [TryLock(r)] + [Tick(ended)], later, [Finish(r, outcome)], end);
    } else {
      end := locked;
    }
  }

  /** The fetch is one step. */
  lemma {:induction false} FetchIsAStep(s: State, r: nat, scanned: nat, now: int)
    requires (r in s.retriers ==> s.retriers[r].todo == []) && scanned <= |s.tables.pending| && now <= s.clock
    ensures var todo := DueBelow(s.tables.pending, scanned, now);
            && Enabled(s, Fetch(r, now, todo))
            && Apply(s, Fetch(r, now, todo)) == s.(retriers :=
               s.retriers[r := RetryWorker(Fetches(s.tables.pending, todo), false)])
  {
    DueRows(s.tables.pending, scanned, now);
    var todo := DueBelow(s.tables.pending, scanned, now);
    assert RetriersAfter(s, Fetch(r, now, todo))[r].todo == Fetches(s.tables.pending, todo);
  }

  function Fetches(pending: seq<Pending>, todo: seq<nat>): (r: seq<Fetched>)
    requires forall i :: 0 <= i < |todo| ==> todo[i] < |pending|
    ensures |r| == |todo| && forall i :: 0 <= i < |todo| ==> r[i] == Fetched(todo[i], pending[todo[i]])
  {
    seq(|todo|, i requires 0 <= i < |todo| => Fetched(todo[i], pending[todo[i]]))
  }

  /** Executions end one after the other. */
  predicate EndInOrder(clock: int, todo: seq<nat>, endedAt: nat -> int) {
    && (forall i :: 0 <= i < |todo| ==> clock <= endedAt(todo[i]))
    && (forall i, j :: 0 <= i < j < |todo| ==> endedAt(todo[i]) <= endedAt(todo[j]))
  }

  predicate OutcomesAreReal(todo: seq<nat>, outcomes: nat -> Outcome) {
    forall i :: 0 <= i < |todo| ==> (outcomes(todo[i]).Succeeded? ==> ChainId(outcomes(todo[i]).txId))
  }

  /** The worker has settled the first n rows of its batch and nothing else has happened. */
  ghost predicate Settling(s: State, now: State, r: nat, todo: seq<nat>, n: nat, outcomes: nat -> Outcome,
                           endedAt: nat -> int)
    requires n <= |todo| && forall i :: 0 <= i < |todo| ==> todo[i] < |s.tables.pending|
  {
    && RowsSettled(s.tables.events, s.tables.pending, now.tables.pending, todo[..n], outcomes, endedAt)
    && now.tables.events == EventsAfterAll(s.tables.events, s.tables.pending, todo[..n], outcomes)
    && now.tables.events.Keys == s.tables.events.Keys
    && now.retriers == s.retriers[r := RetryWorker(Fetches(s.tables.pending, todo)[n..], false)]
    && now.anchors == s.anchors
    && now.clock == if n == 0 then s.clock else endedAt(todo[n - 1])
  }

  lemma {:induction false} RetryIsReady(s: State, now: State, r: nat, todo: seq<nat>, n: nat, outcomes: nat -> Outcome,
                                        endedAt: nat -> int)
    requires n < |todo| && NoRepeats(todo) && forall i :: 0 <= i < |todo| ==> todo[i] < |s.tables.pending|
    requires EndInOrder(s.clock, todo, endedAt) && Settling(s, now, r, todo, n, outcomes, endedAt)
    ensures r in now.retriers && now.retriers[r].todo != [] && !now.retriers[r].running && Enabled(now, TryLock(r))
    ensures now.retriers[r].todo[0] == Fetched(todo[n], s.tables.pending[todo[n]]) && now.clock <= endedAt(todo[n])
    ensures todo[n] < |now.tables.pending| && now.tables.pending[todo[n]] == s.tables.pending[todo[n]]
  {
    TakeOne(todo, n);
    assert RowSettled(s.tables.events, s.tables.pending, now.tables.pending, todo[..n], outcomes, endedAt, todo[n]);
    assert Fetches(s.tables.pending, todo)[n..][0] == Fetched(todo[n], s.tables.pending[todo[n]]);
  }

  lemma {:induction false} TurnSettles(s: State, now: State, next: State, r: nat, todo: seq<nat>, n: nat,
                                       outcomes: nat -> Outcome, endedAt: nat -> int)
    requires n < |todo| && NoRepeats(todo) && forall i :: 0 <= i < |todo| ==> todo[i] < |s.tables.pending|
    requires Settling(s, now, r, todo, n, outcomes, endedAt)
    requires var id := todo[n];
             && id < |now.tables.pending|
             && next.tables == Tables(EventsAfterOutcome(now.tables.events, s.tables.pending[id], outcomes(id)),
                  now.tables.pending[id := Settled(now.tables.events, Lock(s.tables.pending[id]), s.tables.pending[id],
                    outcomes(id), endedAt(id))])
             && next.anchors == now.anchors && next.clock == endedAt(id)
             && r in now.retriers && now.retriers[r].todo != []
                && next.retriers == now.retriers[r := NextRow(now.retriers[r])]
    ensures Settling(s, next, r, todo, n + 1, outcomes, endedAt)
  {
    var id := todo[n];
    TakeOne(todo, n);
    SettledReadsKeys(s.tables.events, now.tables.events, s.tables.pending[id], outcomes(id), endedAt(id));
    OneMoreSettled(s.tables.events, s.tables.pending, now.tables.pending, next.tables.pending, todo[..n], id, outcomes,
      endedAt);
    assert Fetches(s.tables.pending, todo)[n..][1..] == Fetches(s.tables.pending, todo)[n + 1..];
  }

  lemma {:induction false} RetriesAreARun(s: State, r: nat, todo: seq<nat>, n: nat, outcomes: nat -> Outcome,
                                          endedAt: nat -> int)
    returns (steps: seq<Step>, end: State)
    requires n <= |todo| && NoRepeats(todo) && forall i :: 0 <= i < |todo| ==> todo[i] < |s.tables.pending|
    requires forall i :: 0 <= i < |todo| ==> Lockable(s.tables.pending[todo[i]].status)
    requires OutcomesAreReal(todo, outcomes) && EndInOrder(s.clock, todo, endedAt)
    requires r in s.retriers && s.retriers[r] == RetryWorker(Fetches(s.tables.pending, todo), false)
    ensures Leads(s, steps, end)
    ensures Settling(s, end, r, todo, n, outcomes, endedAt)
  {
    if n == 0 {
      steps, end := [], s;
      NoStepLeads(s);
      assert Fetches(s.tables.pending, todo)[0..] == Fetches(s.tables.pending, todo);
    } else {
      var before, now := RetriesAreARun(s, r, todo, n - 1, outcomes, endedAt);
      var id := todo[n - 1];
      RetryIsReady(s, now, r, todo, n - 1, outcomes, endedAt);
      end := RetryTurnIsARun(now, r, outcomes(id), endedAt(id));
      TurnSettles(s, now, end, r, todo, n - 1, outcomes, endedAt);
      var turn := RetrySteps(r, true, outcomes(id), endedAt(id));
      LeadsJoin(s, before, now, turn, end);
      steps := before + turn;
    }
  }

  lemma {:induction false} ProcessRetriesLeads(s: State, r: nat, scanned: nat, now: int, outcomes: nat -> Outcome,
                                               endedAt: nat -> int)
    returns (steps: seq<Step>, end: State)
    requires (r in s.retriers ==> s.retriers[r].todo == []) && scanned <= |s.tables.pending| && now <= s.clock
    requires var todo := DueBelow(s.tables.pending, scanned, now);
             OutcomesAreReal(todo, outcomes) && EndInOrder(s.clock, todo, endedAt)
    ensures Leads(s, steps, end)
    ensures var todo := DueBelow(s.tables.pending, scanned, now);
            && (forall i :: 0 <= i < |todo| ==> todo[i] < |s.tables.pending|)
            && RowsSettled(s.tables.events, s.tables.pending, end.tables.pending, todo, outcomes, endedAt)
            && end.tables.events == EventsAfterAll(s.tables.events, s.tables.pending, todo, outcomes)
    ensures end.retriers == s.retriers[r := RetryWorker([], false)] && end.anchors == s.anchors
  {
    var todo := DueBelow(s.tables.pending, scanned, now);
    var fetch, fetched := FetchLeads(s, r, scanned, now);
    var turns;
    turns, end := RetriesAreARun(fetched, r, todo, |todo|, outcomes, endedAt);
    AllSettled(fetched, end, r, todo, outcomes, endedAt);
    LeadsJoin(s, fetch, fetched, turns, end);
    steps := fetch + turns;
  }

  /** `processRetries` is a run of the machine: it fetches, then locks and executes row by row, and leaves the tables
      that `AnchorServices.Database.ProcessRetries` leaves. */
  lemma {:induction false} ProcessRetriesIsARun(s: State, r: nat, scanned: nat, now: int, outcomes: nat -> Outcome,
                                                endedAt: nat -> int)
    returns (steps: seq<Step>, end: State)
    requires (r in s.retriers ==> s.retriers[r].todo == []) && scanned <= |s.tables.pending| && now <= s.clock
    requires var todo := DueBelow(s.tables.pending, scanned, now);
             OutcomesAreReal(todo, outcomes) && EndInOrder(s.clock, todo, endedAt)
    ensures Possible(s, steps) && After(s, steps) == end
    ensures var todo := DueBelow(s.tables.pending, scanned, now);
            && (forall i :: 0 <= i < |todo| ==> todo[i] < |s.tables.pending|)
            && RowsSettled(s.tables.events, s.tables.pending, end.tables.pending, todo, outcomes, endedAt)
            && end.tables.events == EventsAfterAll(s.tables.events, s.tables.pending, todo, outcomes)
    ensures end.retriers == s.retriers[r := RetryWorker([], false)] && end.anchors == s.anchors
  {
    steps, end := ProcessRetriesLeads(s, r, scanned, now, outcomes, endedAt);
    LeadsIsARun(s, steps, end);
  }

  lemma {:induction false} AllSettled(s: State, now: State, r: nat, todo: seq<nat>, outcomes: nat -> Outcome,
                                      endedAt: nat -> int)
    requires forall i :: 0 <= i < |todo| ==> todo[i] < |s.tables.pending|
    requires Settling(s, now, r, todo, |todo|, outcomes, endedAt)
    ensures RowsSettled(s.tables.events, s.tables.pending, now.tables.pending, todo, outcomes, endedAt)
    ensures now.tables.events == EventsAfterAll(s.tables.events, s.tables.pending, todo, outcomes)
    ensures now.retriers == s.retriers[r := RetryWorker([], false)] && now.anchors == s.anchors
  {
    assert todo[..|todo|] == todo;
    assert Fetches(s.tables.pending, todo)[|todo|..] == [];
  }

  lemma {:induction false} FetchLeads(s: State, r: nat, scanned: nat, now: int)
    returns (fetch: seq<Step>, fetched: State)
    requires (r in s.retriers ==> s.retriers[r].todo == []) && scanned <= |s.tables.pending| && now <= s.clock
    ensures var todo := DueBelow(s.tables.pending, scanned, now);
            && NoRepeats(todo)
            && (forall i :: 0 <= i < |todo| ==>
                todo[i] < |s.tables.pending|
                && Lockable(s.tables.pending[todo[i]].status))
            && Leads(s, fetch, fetched)
            && fetched == s.(retriers := s.retriers[r := RetryWorker(Fetches(s.tables.pending, todo), false)])
  {
    DueRows(s.tables.pending, scanned, now);
    FetchIsAStep(s, r, scanned, now);
    var step := Fetch(r, now, DueBelow(s.tables.pending, scanned, now));
    StepLeads(s, step);
    fetch, fetched := [step], Apply(s, step);
  }
}
