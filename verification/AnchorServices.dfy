/** `AnchorQueueService` and `RetryWorker` themselves, run undisturbed against the two tables. */
module AnchorServices {
  import opened Common
  import opened AnchorTables
  import opened AnchorWorkers

  /** What the chain adapter answers to an anchoring request. */
  datatype Answer = Accepted(txId: string) | Refused(message: string)

  /** What the claiming query returns of an event. */
  datatype Claimed = Claimed(id: string, assetId: string, tenantId: string, signatureHash: string)

  datatype Work = Work(chain: string, event: Claimed)

  datatype Item = Item(id: string, success: bool)

  const DEFAULT_CHAIN := "STELLAR"

  // ----- the queue -----

  function Limit(limit: Option<int>): int {
    var wanted := if limit.Some? then limit.value else 10;
    if wanted < 1 then 1 else if wanted > 50 then 50 else wanted
  }

  /** Options are applied only when one of them is truthy, and then as given. */
  predicate Wanted(e: Event, tenant: Option<string>, asset: Option<string>) {
    (Real(tenant) || Real(asset)) ==>
      (tenant.None? || e.tenantId == tenant.value)
      && (asset.None? || e.assetId == asset.value)
  }

  /** The primary-key index: every event id, in ascending order. */
  predicate IsIndex(events: map<string, Event>, ids: seq<string>) {
    Listed(events, ids) && Ascending(ids) && forall id <- events :: id in ids
  }

  predicate Listed(events: map<string, Event>, ids: seq<string>) {
    NoRepeats(ids) && forall i :: 0 <= i < |ids| ==> ids[i] in events
  }

  function Selected(events: map<string, Event>, ids: seq<string>, tenant: Option<string>,
                    asset: Option<string>): (r: seq<Claimed>)
    requires Listed(events, ids)
  {
    if ids == [] then []
    else
      var id := ids[|ids| - 1];
      var e := events[id];
      var before := Selected(events, ids[..|ids| - 1], tenant, asset);
      if Qualifies(e, tenant, asset) then before + [Claimed(id, e.assetId, e.tenantId, e.signatureHash.value)]
          else before
  }

  function IdsOf(batch: seq<Claimed>): set<string> {
    set i | 0 <= i < |batch| :: batch[i].id
  }

  predicate DistinctIds(batch: seq<Claimed>) {
    forall i, j :: 0 <= i < j < |batch| ==> batch[i].id != batch[j].id
  }

  /** The batch is a list of distinct claimable events, each with what the table holds. */
  lemma {:induction false} SelectedAreClaimable(events: map<string, Event>, ids: seq<string>, tenant: Option<string>,
                                                asset: Option<string>)
    requires Listed(events, ids)
    ensures var batch := Selected(events, ids, tenant, asset);
            && DistinctIds(batch)
            && (forall i :: 0 <= i < |batch| ==>
                  var e := batch[i];
                  && e.id in ids && Claimable(events[e.id]) && Wanted(events[e.id], tenant, asset)
                  && e == Claimed(e.id, events[e.id].assetId, events[e.id].tenantId, events[e.id].signatureHash.value))
            && (forall id :: id in ids && Claimable(events[id]) && Wanted(events[id], tenant, asset) ==>
                id in IdsOf(batch))
  {
    if ids == [] {
    } else {
      var n := |ids| - 1;
      SelectedAreClaimable(events, ids[..n], tenant, asset);
      var before, batch := Selected(events, ids[..n], tenant, asset), Selected(events, ids, tenant, asset);
      assert forall i :: 0 <= i < n ==> ids[i] != ids[n];
      assert IdsOf(before) <= IdsOf(batch) by {
        assert forall i :: 0 <= i < |before| ==> batch[i] == before[i];
      }
      assert batch != before ==> batch[|before|].id == ids[n];
    }
  }

  predicate Qualifies(e: Event, tenant: Option<string>, asset: Option<string>) {
    Claimable(e) && Wanted(e, tenant, asset)
  }

  lemma {:induction false} SelectedIsListed(events: map<string, Event>, ids: seq<string>, tenant: Option<string>,
                                            asset: Option<string>, i: nat)
    requires Listed(events, ids) && i < |Selected(events, ids, tenant, asset)|
    ensures Selected(events, ids, tenant, asset)[i].id in ids
  {
    SelectedAreClaimable(events, ids, tenant, asset);
  }

  predicate AscendingIds(batch: seq<Claimed>) {
    forall i, j :: 0 <= i < j < |batch| ==> Less(batch[i].id, batch[j].id)
  }

  lemma {:induction false} AppendAscends(batch: seq<Claimed>, e: Claimed)
    requires AscendingIds(batch) && forall i :: 0 <= i < |batch| ==> Less(batch[i].id, e.id)
    ensures AscendingIds(batch + [e])
  {
    forall i, j | 0 <= i < j < |batch + [e]| ensures Less((batch + [e])[i].id, (batch + [e])[j].id) {
      assert (batch + [e])[i] == batch[i];
      if j < |batch| {
        assert (batch + [e])[j] == batch[j];
      }
    }
  }

  lemma {:induction false} SelectedAscends(events: map<string, Event>, ids: seq<string>, tenant: Option<string>,
                                           asset: Option<string>)
    requires Listed(events, ids) && Ascending(ids)
    ensures AscendingIds(Selected(events, ids, tenant, asset))
  {
    if ids == [] {
    } else {
      var n := |ids| - 1;
      SelectedAscends(events, ids[..n], tenant, asset);
      var before := Selected(events, ids[..n], tenant, asset);
      forall i | 0 <= i < |before| ensures Less(before[i].id, ids[n]) {
        SelectedIsListed(events, ids[..n], tenant, asset, i);
        var k :| 0 <= k < n && ids[..n][k] == before[i].id;
        assert ids[k] == before[i].id;
      }
      var e := events[ids[n]];
      if Qualifies(e, tenant, asset) {
        AppendAscends(before, Claimed(ids[n], e.assetId, e.tenantId, e.signatureHash.value));
      }
    }
  }

  lemma PrefixHas(ids: seq<string>, n: nat)
    requires n <= |ids|
    ensures forall k :: 0 <= k < n ==> ids[k] in ids[..n]
  {
    assert forall k :: 0 <= k < n ==> ids[..n][k] == ids[k];
  }

  /** What a scan of the index from its start selects comes before everything else that qualifies. */
  lemma SelectedComeFirst(events: map<string, Event>, ids: seq<string>, scanned: nat, tenant: Option<string>,
                          asset: Option<string>)
    requires IsIndex(events, ids) && scanned <= |ids|
    ensures var batch := Selected(events, ids[..scanned], tenant, asset);
            && AscendingIds(batch)
            && forall id :: id in events && Qualifies(events[id], tenant, asset) && id !in IdsOf(batch) ==>
                 scanned < |ids| && forall i :: 0 <= i < |batch| ==> Less(batch[i].id, id)
  {
    var batch := Selected(events, ids[..scanned], tenant, asset);
    SelectedAscends(events, ids[..scanned], tenant, asset);
    SelectedAreClaimable(events, ids[..scanned], tenant, asset);
    forall id | id in events && Qualifies(events[id], tenant, asset) && id !in IdsOf(batch)
      ensures scanned < |ids| && forall i :: 0 <= i < |batch| ==> Less(batch[i].id, id)
    {
      var k :| 0 <= k < |ids| && ids[k] == id;
      PrefixHas(ids, scanned);
      forall i | 0 <= i < |batch| ensures Less(batch[i].id, id) {
        var m :| 0 <= m < scanned && ids[..scanned][m] == batch[i].id;
        assert ids[m] == batch[i].id;
      }
    }
  }

  // ----- grouping by chain -----

  function UpperChar(c: char): char {
    if 'a' <= c <= 'z' then c - ' ' else c
  }

  function TrimStart(s: string): string {
    if s != "" && IsSpace(s[0]) then TrimStart(s[1..]) else s
  }

  function TrimEnd(s: string): string {
    if s != "" && IsSpace(s[|s| - 1]) then TrimEnd(s[..|s| - 1]) else s
  }

  function Normal(chain: string): string {
    var trimmed := TrimEnd(TrimStart(chain));
    seq(|trimmed|, i requires 0 <= i < |trimmed| => UpperChar(trimmed[i]))
  }

  function ChainOf(chains: map<string, string>, e: Claimed): string {
    Normal(if e.tenantId in chains then chains[e.tenantId] else DEFAULT_CHAIN)
  }

  function Tagged(chain: string, group: seq<Claimed>): seq<Work> {
    seq(|group|, i requires 0 <= i < |group| => Work(chain, group[i]))
  }

  /** The order in which the groups are worked off. */
  function Flatten(order: seq<string>, byChain: map<string, seq<Claimed>>): seq<Work> {
    if order == [] then []
    else
      var chain := order[|order| - 1];
      Flatten(order[..|order| - 1], byChain) + Tagged(chain, if chain in byChain then byChain[chain] else [])
  }

  /** How events are routed: each to its tenant's chain. */
  function Router(chains: map<string, string>): Claimed -> string {
    (e: Claimed) => ChainOf(chains, e)
  }

  function Assigned(batch: seq<Claimed>, chainOf: Claimed -> string): seq<Work> {
    seq(|batch|, i requires 0 <= i < |batch| => Work(chainOf(batch[i]), batch[i]))
  }

  lemma {:induction false} OtherGroupsUntouched(order: seq<string>, byChain: map<string, seq<Claimed>>, chain: string,
                                                group: seq<Claimed>)
    requires chain !in order
    ensures Flatten(order, byChain[chain := group]) == Flatten(order, byChain)
  {
    if order == [] {
    } else {
      OtherGroupsUntouched(order[..|order| - 1], byChain, chain, group);
    }
  }

  lemma LastGroupGrows(order: seq<string>, byChain: map<string, seq<Claimed>>, chain: string, e: Claimed)
    requires NoRepeats(order) && order != [] && order[|order| - 1] == chain && chain in byChain
    ensures Flatten(order, byChain[chain := byChain[chain] + [e]]) == Flatten(order, byChain) + [Work(chain, e)]
  {
    OtherGroupsUntouched(order[..|order| - 1], byChain, chain, byChain[chain] + [e]);
    assert Tagged(chain, byChain[chain] + [e]) == Tagged(chain, byChain[chain]) + [Work(chain, e)];
  }

  lemma {:induction false} GroupGrows(order: seq<string>, byChain: map<string, seq<Claimed>>, chain: string, e: Claimed)
    requires NoRepeats(order) && chain in order && chain in byChain
    ensures multiset(Flatten(order, byChain[chain := byChain[chain] + [e]]))
            == multiset(Flatten(order, byChain)) + multiset{Work(chain, e)}
  {
    var n := |order| - 1;
    if order[n] == chain {
      LastGroupGrows(order, byChain, chain, e);
    } else {
      GroupGrows(order[..n], byChain, chain, e);
    }
  }

  ghost predicate Grouped(order: seq<string>, byChain: map<string, seq<Claimed>>, works: multiset<Work>) {
    && NoRepeats(order) && (forall chain :: chain in order <==> chain in byChain)
    && multiset(Flatten(order, byChain)) == works
  }

  lemma NewGroup(order: seq<string>, byChain: map<string, seq<Claimed>>, chain: string, works: multiset<Work>)
    requires Grouped(order, byChain, works) && chain !in byChain
    ensures Grouped(order + [chain], byChain[chain := []], works)
  {
    OtherGroupsUntouched(order, byChain, chain, []);
    assert (order + [chain])[..|order|] == order;
    assert Tagged(chain, []) == [];
  }

  lemma GrownGroup(order: seq<string>, byChain: map<string, seq<Claimed>>, chain: string, e: Claimed,
                   works: multiset<Work>)
    requires Grouped(order, byChain, works) && chain in byChain
    ensures Grouped(order, byChain[chain := byChain[chain] + [e]], works + multiset{Work(chain, e)})
  {
    GroupGrows(order, byChain, chain, e);
  }

  /** The chains of the batch, in order of first appearance. */
  function ChainsIn(batch: seq<Claimed>, chainOf: Claimed -> string): seq<string> {
    if batch == [] then []
    else
      var before, chain := ChainsIn(batch[..|batch| - 1], chainOf), chainOf(batch[|batch| - 1]);
      if chain in before then before else before + [chain]
  }

  /** The events of one chain, in batch order. */
  function OfChain(batch: seq<Claimed>, chainOf: Claimed -> string, chain: string): seq<Claimed> {
    if batch == [] then []
    else
      var before, e := OfChain(batch[..|batch| - 1], chainOf, chain), batch[|batch| - 1];
      if chainOf(e) == chain then before + [e] else before
  }

  function GroupsOf(batch: seq<Claimed>, chainOf: Claimed -> string): map<string, seq<Claimed>> {
    map chain <- ChainsIn(batch, chainOf) :: OfChain(batch, chainOf, chain)
  }

  lemma {:induction false} UnseenChainIsEmpty(batch: seq<Claimed>, chainOf: Claimed -> string, chain: string)
    requires chain !in ChainsIn(batch, chainOf)
    ensures OfChain(batch, chainOf, chain) == []
  {
    if batch == [] {
    } else {
      UnseenChainIsEmpty(batch[..|batch| - 1], chainOf, chain);
    }
  }

  lemma {:induction false} OneMoreOfChain(batch: seq<Claimed>, e: Claimed, chainOf: Claimed -> string, chain: string)
    ensures OfChain(batch + [e], chainOf, chain)
            == if chainOf(e) == chain then OfChain(batch, chainOf, chain) + [e] else OfChain(batch, chainOf, chain)
  {
    assert (batch + [e])[..|batch|] == batch;
  }

  lemma {:induction false} OneMoreChain(batch: seq<Claimed>, e: Claimed, chainOf: Claimed -> string)
    ensures var order := ChainsIn(batch, chainOf);
            ChainsIn(batch + [e], chainOf) == if chainOf(e) in order then order else order + [chainOf(e)]
  {
    assert (batch + [e])[..|batch|] == batch;
  }

  lemma {:induction false} OneMoreEvent(batch: seq<Claimed>, e: Claimed, chainOf: Claimed -> string)
    ensures var chain := chainOf(e);
            var order, groups := ChainsIn(batch, chainOf), GroupsOf(batch, chainOf);
            var group := if chain in groups then groups[chain] else [];
            && ChainsIn(batch + [e], chainOf) == (if chain in groups then order else order + [chain])
            && GroupsOf(batch + [e], chainOf) == groups[chain := group + [e]]
  {
    var chain := chainOf(e);
    var groups, after := GroupsOf(batch, chainOf), GroupsOf(batch + [e], chainOf);
    OneMoreChain(batch, e, chainOf);
    var group := if chain in groups then groups[chain] else [];
    if chain !in groups {
      UnseenChainIsEmpty(batch, chainOf, chain);
    }
    assert after.Keys == groups.Keys + {chain};
    forall c | c in after ensures after[c] == groups[chain := group + [e]][c] {
      OneMoreOfChain(batch, e, chainOf, c);
    }
  }

  lemma {:induction false} AssignedNext(batch: seq<Claimed>, e: Claimed, chainOf: Claimed -> string)
    ensures multiset(Assigned(batch + [e], chainOf)) == multiset(Assigned(batch, chainOf))
            + multiset{Work(chainOf(e), e)}
  {
    assert Assigned(batch + [e], chainOf) == Assigned(batch, chainOf) + [Work(chainOf(e), e)];
  }

  /** Group by group or event by event: it is the same work. */
  lemma {:induction false} GroupsHoldTheBatch(batch: seq<Claimed>, chainOf: Claimed -> string)
    ensures Grouped(ChainsIn(batch, chainOf), GroupsOf(batch, chainOf), multiset(Assigned(batch, chainOf)))
  {
    if batch == [] {
    } else {
      var before, e := batch[..|batch| - 1], batch[|batch| - 1];
      assert batch == before + [e];
      var order, groups, works := ChainsIn(before, chainOf), GroupsOf(before, chainOf),
          multiset(Assigned(before, chainOf));
      GroupsHoldTheBatch(before, chainOf);
      OneMoreEvent(before, e, chainOf);
      AssignedNext(before, e, chainOf);
      OneMoreGrouped(order, groups, works, chainOf(e), e);
    }
  }

  lemma {:induction false} OneMoreGrouped(order: seq<string>, groups: map<string, seq<Claimed>>, works: multiset<Work>,
                                          chain: string, e: Claimed)
    requires Grouped(order, groups, works)
    ensures if chain in groups then Grouped(order, groups[chain := groups[chain] + [e]],
            works + multiset{Work(chain, e)})
            else Grouped(order + [chain], groups[chain := [] + [e]], works + multiset{Work(chain, e)})
  {
    if chain in groups {
      GrownGroup(order, groups, chain, e, works);
    } else {
      NewGroup(order, groups, chain, works);
      GrownGroup(order + [chain], groups[chain := []], chain, e, works);
      assert groups[chain := []][chain := [] + [e]] == groups[chain := [] + [e]];
    }
  }

  method PushToGroup(order: seq<string>, byChain: map<string, seq<Claimed>>, chain: string, event: Claimed)
    returns (order': seq<string>, byChain': map<string, seq<Claimed>>)
    ensures order' == if chain in byChain then order else order + [chain]
    ensures byChain' == byChain[chain := (if chain in byChain then byChain[chain] else []) + [event]]
  {
    order', byChain' := order, byChain;
    if chain !in byChain' {
      byChain' := byChain'[chain := []];
      order' := order' + [chain];
    }
    byChain' := byChain'[chain := byChain'[chain] + [event]];
  }

  method GroupByChain(batch: seq<Claimed>, chains: map<string, string>)
    returns (order: seq<string>, byChain: map<string, seq<Claimed>>)
    ensures order == ChainsIn(batch, Router(chains)) && byChain == GroupsOf(batch, Router(chains))
    ensures Grouped(order, byChain, multiset(Assigned(batch, Router(chains))))
  {
    var chainOf := Router(chains);
    order, byChain := [], map[];
    ghost var done: seq<Claimed> := [];
    for i := 0 to |batch|
      invariant done == batch[..i]
      invariant order == ChainsIn(done, chainOf) && byChain == GroupsOf(done, chainOf)
    {
      var event := batch[i];
      OneMoreEvent(done, event, chainOf);
      order, byChain := PushToGroup(order, byChain, chainOf(event), event);
      done := done + [event];
    }
    assert done == batch;
    GroupsHoldTheBatch(batch, chainOf);
  }

  // ----- the outcome of one event -----

  /** One turn of the inner loop: the anchoring write, or what the catch branch writes; the write of a missing event
      throws. */
  function ServeOne(tables: Tables, work: Work, answer: Answer): (r: Tables)
    ensures r.events.Keys == tables.events.Keys
  {
    var id := work.event.id;
    if answer.Accepted? && id in tables.events then tables.(events := WriteTxId(tables.events, id, answer.txId))
    else if answer.Refused? && LacksFunds(answer.message) then tables.(events := ReturnForFunds(tables.events, id))
    else Tables(MarkForRetry(tables.events, id), tables.pending
      + [NewPending(work.event.tenantId, id, ANCHOR, work.chain)])
  }

  function ServeAll(tables: Tables, works: seq<Work>, answers: string -> Answer): (r: Tables)
    ensures r.events.Keys == tables.events.Keys
  {
    if works == [] then tables
    else
      var work := works[|works| - 1];
      ServeOne(ServeAll(tables, works[..|works| - 1], answers), work, answers(work.event.id))
  }

  /** A claimed event after its turn. */
  function Served(e: Event, answer: Answer): Event {
    match answer
    case Accepted(txId) => e.(dltTxId := Some(txId))
    case Refused(message) => if LacksFunds(message) then e.(dltTxId := None, status := PENDING_FUNDS)
      else e.(dltTxId := Some(RETRY_MARK))
  }

  predicate GoesToRetry(answer: Answer) {
    answer.Refused? && !LacksFunds(answer.message)
  }

  function RetryRows(works: seq<Work>, answers: string -> Answer): seq<Pending> {
    if works == [] then []
    else
      var work := works[|works| - 1];
      RetryRows(works[..|works| - 1], answers)
      + if GoesToRetry(answers(work.event.id)) then [NewPending(work.event.tenantId, work.event.id, ANCHOR,
        work.chain)] else []
  }

  function WorkIds(works: seq<Work>): set<string> {
    set i | 0 <= i < |works| :: works[i].event.id
  }

  predicate DistinctWork(works: seq<Work>) {
    forall i, j :: 0 <= i < j < |works| ==> works[i].event.id != works[j].event.id
  }

  /** The turn of an event that is still marked as being processed touches no other event. */
  lemma OneTurn(tables: Tables, work: Work, answer: Answer)
    requires work.event.id in tables.events && tables.events[work.event.id].dltTxId == Some(PROCESSING_MARK)
    ensures var r := ServeOne(tables, work, answer);
            && r.events == tables.events[work.event.id := Served(tables.events[work.event.id], answer)]
            && r.pending == tables.pending
               + if GoesToRetry(answer) then [NewPending(work.event.tenantId, work.event.id, ANCHOR, work.chain)]
                 else []
  {
  }

  /** A whole batch, undisturbed: every event ends as its own answer says, and every other event is as it was. */
  lemma {:induction false} EveryEventGetsItsAnswer(tables: Tables, works: seq<Work>, answers: string -> Answer)
    requires DistinctWork(works)
    requires forall i :: 0 <= i < |works| ==>
               works[i].event.id in tables.events && tables.events[works[i].event.id].dltTxId == Some(PROCESSING_MARK)
    ensures var r := ServeAll(tables, works, answers);
            && r.pending == tables.pending + RetryRows(works, answers)
            && forall id :: id in tables.events ==>
                 r.events[id] == if id in WorkIds(works) then Served(tables.events[id], answers(id))
                   else tables.events[id]
  {
    if works == [] {
    } else {
      var n := |works| - 1;
      var id := works[n].event.id;
      EveryEventGetsItsAnswer(tables, works[..n], answers);
      assert WorkIds(works) == WorkIds(works[..n]) + {id};
      assert id !in WorkIds(works[..n]);
      OneTurn(ServeAll(tables, works[..n], answers), works[n], answers(id));
    }
  }

  lemma RegroupedWork(batch: seq<Claimed>, chainOf: Claimed -> string, works: seq<Work>)
    requires DistinctIds(batch) && multiset(works) == multiset(Assigned(batch, chainOf))
    ensures DistinctWork(works) && WorkIds(works) == IdsOf(batch)
    ensures forall i :: 0 <= i < |works| ==> works[i].event in batch && works[i].chain == chainOf(works[i].event)
  {
    var before := Assigned(batch, chainOf);
    forall w ensures w in works <==> w in before {
      assert w in works <==> w in multiset(works);
      assert w in before <==> w in multiset(before);
    }
    forall i | 0 <= i < |works| ensures works[i].event in batch && works[i].chain == chainOf(works[i].event) {
      assert works[i] in before;
    }
    forall i | 0 <= i < |batch| ensures batch[i].id in WorkIds(works) {
      assert before[i] in works;
    }
    DistinctAfterRegrouping(before, works);
  }

  lemma DistinctAfterRegrouping(before: seq<Work>, works: seq<Work>)
    requires DistinctWork(before) && multiset(before) == multiset(works)
    ensures DistinctWork(works)
  {
    forall i, j | 0 <= i < j < |works| ensures works[i].event.id != works[j].event.id {
      if works[i] == works[j] {
        OccursTwice(works, i, j);
        OccursOnce(before, works[i]);
      } else {
        assert works[i] in multiset(before) && works[j] in multiset(before);
      }
    }
  }

  lemma OccursTwice(works: seq<Work>, i: nat, j: nat)
    requires i < j < |works| && works[i] == works[j]
    ensures multiset(works)[works[i]] >= 2
  {
    assert works == works[..j] + [works[j]] + works[j + 1..];
    assert works[i] in works[..j];
  }

  lemma {:induction false} OccursOnce(works: seq<Work>, work: Work)
    requires DistinctWork(works)
    ensures multiset(works)[work] <= 1
  {
    if works == [] {
    } else {
      var n := |works| - 1;
      assert works == works[..n] + [works[n]];
      OccursOnce(works[..n], work);
      assert work in works[..n] ==> work != works[n];
    }
  }

  ghost predicate InTable(events: map<string, Event>, works: seq<Work>) {
    forall i :: 0 <= i < |works| ==> works[i].event.id in events
  }

  lemma {:induction false} ServeAllJoins(tables: Tables, works: seq<Work>, more: seq<Work>, answers: string -> Answer)
    ensures ServeAll(ServeAll(tables, works, answers), more, answers) == ServeAll(tables, works + more, answers)
  {
    if more == [] {
      assert works + more == works;
    } else {
      var n := |more| - 1;
      ServeAllJoins(tables, works, more[..n], answers);
      assert (works + more)[..|works| + n] == works + more[..n];
      assert (works + more)[|works| + n] == more[n];
    }
  }

  /** The next group is part of the work too. */
  lemma FlattenNext(events: map<string, Event>, order: seq<string>, byChain: map<string, seq<Claimed>>, c: nat)
    requires c < |order| && order[c] in byChain && InTable(events, Flatten(order, byChain))
    ensures Flatten(order[..c + 1], byChain) == Flatten(order[..c], byChain) + Tagged(order[c], byChain[order[c]])
    ensures InTable(events, Tagged(order[c], byChain[order[c]]))
  {
    FlattenSplits(order, byChain, c + 1);
    assert order[..c + 1][..c] == order[..c];
    var before, group := Flatten(order[..c], byChain), Tagged(order[c], byChain[order[c]]);
    forall i | 0 <= i < |group| ensures group[i].event.id in events {
      assert Flatten(order, byChain)[|before| + i] == (before + group)[|before| + i] == group[i];
    }
  }

  lemma WorkIsInTable(events: map<string, Event>, batch: seq<Claimed>, chainOf: Claimed -> string, works: seq<Work>)
    requires (forall i :: 0 <= i < |batch| ==> batch[i].id in events)
             && multiset(works) == multiset(Assigned(batch, chainOf))
    ensures InTable(events, works)
  {
    forall i | 0 <= i < |works| ensures works[i].event.id in events {
      assert works[i] in multiset(works);
      assert works[i] in Assigned(batch, chainOf);
    }
  }

  lemma {:induction false} NextGroup(tables: Tables, order: seq<string>, byChain: map<string, seq<Claimed>>, c: nat,
                                     answers: string -> Answer)
    requires c < |order| && order[c] in byChain && InTable(tables.events, Flatten(order, byChain))
    ensures var done, group, done' := Flatten(order[..c], byChain), Tagged(order[c], byChain[order[c]]),
            Flatten(order[..c + 1], byChain);
            && InTable(tables.events, group)
            && ServeAll(ServeAll(tables, done, answers), group, answers) == ServeAll(tables, done', answers)
            && Items(done, answers) + Items(group, answers) == Items(done', answers)
  {
    var done, group := Flatten(order[..c], byChain), Tagged(order[c], byChain[order[c]]);
    FlattenNext(tables.events, order, byChain, c);
    ServeAllJoins(tables, done, group, answers);
    ItemsJoin(done, group, answers);
  }

  lemma {:induction false} ItemsJoin(works: seq<Work>, more: seq<Work>, answers: string -> Answer)
    ensures Items(works + more, answers) == Items(works, answers) + Items(more, answers)
  {
  }

  /** What a claimed and regrouped batch comes to. */
  lemma {:induction false} BatchOutcome(events: map<string, Event>, pending: seq<Pending>, ids: seq<string>,
                                        tenant: Option<string>, asset: Option<string>, chainOf: Claimed -> string,
                                        works: seq<Work>, answers: string -> Answer)
    requires Listed(events, ids) && multiset(works) == multiset(Assigned(Selected(events, ids, tenant, asset), chainOf))
    ensures var batch := Selected(events, ids, tenant, asset);
            var r := ServeAll(Tables(Claim(events, IdsOf(batch)), pending), works, answers);
            && r.pending == pending + RetryRows(works, answers)
            && forall id :: id in events ==> r.events[id] == if id in IdsOf(batch) then Served(events[id], answers(id))
               else events[id]
  {
    var batch := Selected(events, ids, tenant, asset);
    SelectedAreClaimable(events, ids, tenant, asset);
    RegroupedWork(batch, chainOf, works);
    var claimed := Claim(events, IdsOf(batch));
    forall i | 0 <= i < |works| ensures works[i].event.id in events
        && claimed[works[i].event.id].dltTxId == Some(PROCESSING_MARK) {
      assert works[i].event in batch;
    }
    EveryEventGetsItsAnswer(Tables(claimed, pending), works, answers);
    forall id | id in IdsOf(batch) ensures Served(claimed[id], answers(id)) == Served(events[id], answers(id)) {
    }
  }

  lemma {:induction false} FlattenSplits(order: seq<string>, byChain: map<string, seq<Claimed>>, c: nat)
    requires c <= |order|
    ensures Flatten(order[..c], byChain) <= Flatten(order, byChain)
  {
    if c < |order| {
      assert order[..|order| - 1][..c] == order[..c];
      FlattenSplits(order[..|order| - 1], byChain, c);
    } else {
      assert order[..c] == order;
    }
  }

  // ----- the services -----

  class Database {
    var events: map<string, Event>
    /** The event ids in ascending order: the primary-key index the claiming query walks. */
    var ids: seq<string>
    var pending: seq<Pending>

    constructor (events: map<string, Event>, ids: seq<string>, pending: seq<Pending>)
      ensures this.events == events && this.ids == ids && this.pending == pending
    {
      this.events, this.ids, this.pending := events, ids, pending;
    }

    ghost function Tables(): Tables
      reads this
    {
      AnchorTables.Tables(events, pending)
    }

    /** The claiming transaction: the first unclaimed events in id order, marked before anyone else can see them. */
    method ClaimEvents(tenant: Option<string>, asset: Option<string>, limit: Option<int>)
      returns (batch: seq<Claimed>, ghost scanned: nat)
      requires IsIndex(events, ids)
      modifies this`events
      ensures scanned <= |ids| && batch == Selected(old(events), ids[..scanned], tenant, asset)
      ensures |batch| <= Limit(limit) && (scanned < |ids| ==> |batch| == Limit(limit))
      ensures events == Claim(old(events), IdsOf(batch))
      ensures AscendingIds(batch)
      ensures forall id :: id in old(events) && Qualifies(old(events)[id], tenant, asset) && id !in IdsOf(batch) ==>
                |batch| == Limit(limit) && forall i :: 0 <= i < |batch| ==> Less(batch[i].id, id)
    {
      batch := [];
      var i := 0;
      while i < |ids| && |batch| < Limit(limit)
        invariant 0 <= i <= |ids| && batch == Selected(events, ids[..i], tenant, asset) && |batch| <= Limit(limit)
      {
        assert ids[..i + 1][..i] == ids[..i];
        var e := events[ids[i]];
        if Claimable(e) && Wanted(e, tenant, asset) {
          batch := batch + [Claimed(ids[i], e.assetId, e.tenantId, e.signatureHash.value)];
        }
        i := i + 1;
      }
      scanned := i;
      SelectedComeFirst(events, ids, scanned, tenant, asset);
      events := Claim(events, set k | 0 <= k < |batch| :: batch[k].id);
    }

    method AnchorOne(work: Work, answer: Answer) returns (item: Item)
      modifies this`events, this`pending
      ensures Tables() == ServeOne(old(Tables()), work, answer)
      ensures item == Item(work.event.id, answer.Accepted? && work.event.id in old(events))
    {
      var id := work.event.id;
      if answer.Accepted? && id in events {
        events := events[id := events[id].(dltTxId := Some(answer.txId))];
        return Item(id, true);
      }
      if answer.Refused? && (Includes(answer.message, "Insufficient funds")
          || Includes(answer.message, "PENDING_FUNDS")) {
        if id in events && events[id].dltTxId == Some(PROCESSING_MARK) {
          events := events[id := events[id].(dltTxId := None, status := PENDING_FUNDS)];
        }
      } else {
        Enqueue(work.event.tenantId, id, ANCHOR, work.chain);
        if id in events && events[id].dltTxId == Some(PROCESSING_MARK) {
          events := events[id := events[id].(dltTxId := Some(RETRY_MARK))];
        }
      }
      return Item(id, false);
    }

    /** `RetryWorker.enqueue`. */
    method Enqueue(tenant: string, txRef: string, txType: TxType, chain: string)
      modifies this`pending
      ensures pending == old(pending) + [NewPending(tenant, txRef, txType, chain)]
    {
      pending := pending + [Pending(tenant, txRef, txType, chain, TxStatus.PENDING, 0, 5, None, false)];
    }

    /** `processQueue`, undisturbed: one batch is claimed, and each of its events gets the outcome of its own answer. */
    method ProcessQueue(tenant: Option<string>, asset: Option<string>, limit: Option<int>, chains: map<string, string>,
                        answers: string -> Answer)
      returns (items: seq<Item>, batch: seq<Claimed>, ghost works: seq<Work>, ghost scanned: nat)
      requires IsIndex(events, ids)
      modifies this`events, this`pending
      ensures scanned <= |ids| && batch == Selected(old(events), ids[..scanned], tenant, asset)
      ensures |batch| <= Limit(limit) && (scanned < |ids| ==> |batch| == Limit(limit))
      ensures multiset(works) == multiset(Assigned(batch, Router(chains)))
      ensures items == Items(works, answers)
      ensures Tables() == ServeAll(AnchorTables.Tables(Claim(old(events), IdsOf(batch)), old(pending)), works, answers)
      ensures pending == old(pending) + RetryRows(works, answers)
      ensures events.Keys == old(events).Keys
      ensures forall id :: id in old(events) ==>
                events[id] == if id in IdsOf(batch) then Served(old(events)[id], answers(id)) else old(events)[id]
    {
      batch, scanned := ClaimEvents(tenant, asset, limit);
      SelectedAreClaimable(old(events), ids[..scanned], tenant, asset);
      ghost var claimed := Tables();
      items, works := ServeBatch(batch, chains, answers);
      BatchOutcome(old(events), claimed.pending, ids[..scanned], tenant, asset, Router(chains), works, answers);
    }

    method ServeBatch(batch: seq<Claimed>, chains: map<string, string>, answers: string -> Answer)
      returns (items: seq<Item>, ghost works: seq<Work>)
      requires forall i :: 0 <= i < |batch| ==> batch[i].id in events
      modifies this`events, this`pending
      ensures multiset(works) == multiset(Assigned(batch, Router(chains)))
      ensures Tables() == ServeAll(old(Tables()), works, answers)
      ensures items == Items(works, answers)
    {
      var order, byChain := GroupByChain(batch, chains);
      works := Flatten(order, byChain);
      WorkIsInTable(events, batch, Router(chains), works);
      items := WorkOff(order, byChain, answers);
    }

    method WorkOff(order: seq<string>, byChain: map<string, seq<Claimed>>, answers: string -> Answer)
      returns (items: seq<Item>)
      requires forall chain :: chain in order ==> chain in byChain
      requires InTable(events, Flatten(order, byChain))
      modifies this`events, this`pending
      ensures Tables() == ServeAll(old(Tables()), Flatten(order, byChain), answers)
      ensures items == Items(Flatten(order, byChain), answers)
    {
      items := [];
      ghost var start := Tables();
      for c := 0 to |order|
        invariant events.Keys == start.events.Keys
        invariant Tables() == ServeAll(start, Flatten(order[..c], byChain), answers)
        invariant items == Items(Flatten(order[..c], byChain), answers)
      {
        NextGroup(start, order, byChain, c, answers);
        var served := WorkOffGroup(order[c], byChain[order[c]], answers);
        items := items + served;
      }
      assert order[..|order|] == order;
    }

    method WorkOffGroup(chain: string, group: seq<Claimed>, answers: string -> Answer) returns (items: seq<Item>)
      requires InTable(events, Tagged(chain, group))
      modifies this`events, this`pending
      ensures Tables() == ServeAll(old(Tables()), Tagged(chain, group), answers)
      ensures items == Items(Tagged(chain, group), answers)
    {
      items := [];
      for j := 0 to |group|
        invariant events.Keys == old(events.Keys)
        invariant Tables() == ServeAll(old(Tables()), Tagged(chain, group[..j]), answers)
        invariant items == Items(Tagged(chain, group[..j]), answers)
      {
        var work := Work(chain, group[j]);
        assert Tagged(chain, group)[j] == work;
        assert Tagged(chain, group[..j + 1])[..j] == Tagged(chain, group[..j]);
        var item := AnchorOne(work, answers(work.event.id));
        items := items + [item];
      }
      assert group[..|group|] == group;
    }

    // ----- the retry worker -----

    method HandleFailure(tx: Fetched, critical: bool, now: int)
      requires tx.id < |pending|
      modifies this`pending
      ensures pending == old(pending)[tx.id := Fail(old(pending)[tx.id], tx.row, critical, now)]
    {
      var newAttemptCount := tx.row.attemptCount + 1;
      var isFinalAttempt := newAttemptCount >= tx.row.maxAttempts;
      if critical || isFinalAttempt {
        pending := pending[tx.id := pending[tx.id].(status := DLQ, isDlq := true, attemptCount := newAttemptCount)];
      } else {
        var delayMs := BASE_DELAY_MS * Pow2(newAttemptCount - 1);
        delayMs := if delayMs < MAX_DELAY_MS then delayMs else MAX_DELAY_MS;
        pending := pending[tx.id := pending[tx.id].(status := FAILED, attemptCount := newAttemptCount,
          nextRetryAt := Some(now + delayMs))];
      }
    }

    /** One turn of the retry loop after a successful lock; the answer says which counter it raises. */
    method RetryOne(tx: Fetched, outcome: Outcome, now: int) returns (counted: TxStatus)
      requires tx.id < |pending|
      modifies this`events, this`pending
      ensures pending == old(pending)[tx.id := Settled(old(events), old(pending)[tx.id], tx.row, outcome, now)]
      ensures events == EventsAfterOutcome(old(events), tx.row, outcome)
      ensures counted == Counted(pending[tx.id].status, outcome)
    {
      match outcome {
        case Succeeded(txId) =>
          if tx.row.txType.ANCHOR? && txId != "" && tx.row.txRef !in events {
            HandleFailure(tx, false, now);
            counted := FAILED;
          } else {
            pending := pending[tx.id := pending[tx.id].(status := SUCCESS, attemptCount := tx.row.attemptCount + 1)];
            if tx.row.txType.ANCHOR? && txId != "" {
              events := events[tx.row.txRef := events[tx.row.txRef].(dltTxId := Some(txId))];
            }
            counted := SUCCESS;
          }
        case Failed(message) =>
          var critical := IsCriticalError(message);
          HandleFailure(tx, critical, now);
          counted := if critical || tx.row.attemptCount + 1 >= tx.row.maxAttempts then DLQ else FAILED;
        case Threw(_) =>
          HandleFailure(tx, false, now);
          counted := FAILED;
      }
    }

    /** The fetch: the oldest rows that are due, twenty at most. */
    method FetchDue(now: int) returns (todo: seq<nat>, ghost scanned: nat)
      ensures scanned <= |pending| && todo == DueBelow(pending, scanned, now)
      ensures |todo| <= 20 && (scanned < |pending| ==> |todo| == 20)
    {
      todo := [];
      var i := 0;
      while i < |pending| && |todo| < BATCH
        invariant 0 <= i <= |pending| && todo == DueBelow(pending, i, now) && |todo| <= BATCH
      {
        if Due(pending[i], now) {
          todo := todo + [i];
        }
        i := i + 1;
      }
      scanned := i;
    }

    /** `processRetries`, undisturbed; `outcomes` and `endedAt` say how and when each execution ends. */
    method ProcessRetries(now: int, outcomes: nat -> Outcome, endedAt: nat -> int)
      returns (processed: nat, succeeded: nat, failed: nat, dlq: nat, ghost todo: seq<nat>, ghost scanned: nat)
      modifies this`events, this`pending
      ensures scanned <= |old(pending)| && todo == DueBelow(old(pending), scanned, now)
      ensures |todo| <= 20 && (scanned < |old(pending)| ==> |todo| == 20)
      ensures RowsSettled(old(events), old(pending), pending, todo, outcomes, endedAt)
      ensures events == EventsAfterAll(old(events), old(pending), todo, outcomes)
      ensures processed == |todo| == succeeded + failed + dlq
      ensures succeeded == Counting(pending, todo, outcomes, SUCCESS) && dlq == Counting(pending, todo, outcomes, DLQ)
    {
      var batch;
      batch, scanned := FetchDue(now);
      todo := batch;
      DueRows(pending, scanned, now);
      var snapshot := pending;
      succeeded, failed, dlq := 0, 0, 0;
      for i := 0 to |batch|
        invariant Progress(old(events), snapshot, events, pending, todo[..i], outcomes, endedAt, succeeded, dlq)
        invariant i == succeeded + failed + dlq
      {
        var tx := Fetched(batch[i], snapshot[batch[i]]);
        TakeOne(todo, i);
        ghost var before, events' := pending, events;
        assert RowSettled(old(events), snapshot, pending, todo[..i], outcomes, endedAt, tx.id);
        assert pending[tx.id] == tx.row;
        var counted := LockAndRetry(tx, outcomes(tx.id), endedAt(tx.id));
        ProgressNext(old(events), snapshot, events', before, pending, todo[..i], tx.id, outcomes, endedAt, succeeded,
          dlq);
        match counted {
          case Some(SUCCESS) => succeeded := succeeded + 1;
          case Some(DLQ) => dlq := dlq + 1;
          case Some(_) => failed := failed + 1;
          case None =>
        }
      }
      assert todo[..|todo|] == todo;
      processed := |batch|;
    }

    /** The try block of the retry loop: another worker may have the row, and then nothing happens. */
    method LockAndRetry(tx: Fetched, outcome: Outcome, now: int) returns (counted: Option<TxStatus>)
      requires tx.id < |pending|
      modifies this`events, this`pending
      ensures var p := old(pending)[tx.id];
              if Lockable(p.status) then
                && pending == old(pending)[tx.id := Settled(old(events), Lock(p), tx.row, outcome, now)]
                && events == EventsAfterOutcome(old(events), tx.row, outcome)
                && counted == Some(Counted(pending[tx.id].status, outcome))
              else pending == old(pending) && events == old(events) && counted == None
    {
      if pending[tx.id].status.PENDING? || pending[tx.id].status.FAILED? {
        pending := pending[tx.id := pending[tx.id].(status := PROCESSING)];
        var counter := RetryOne(tx, outcome, now);
        counted := Some(counter);
      } else {
        counted := None;
      }
    }
  }

  function Items(works: seq<Work>, answers: string -> Answer): seq<Item> {
    seq(|works|, i requires 0 <= i < |works| => Item(works[i].event.id, answers(works[i].event.id).Accepted?))
  }

  /** The counter a settled row raises: a row sent to the dead letters by a thrown error is counted as failed. */
  function Counted(status: TxStatus, outcome: Outcome): TxStatus {
    if status.SUCCESS? then SUCCESS else if status.DLQ? && outcome.Failed? then DLQ else FAILED
  }

  function Counting(pending: seq<Pending>, todo: seq<nat>, outcomes: nat -> Outcome, counter: TxStatus): int {
    Sum(todo, (id: nat) => if id < |pending| && Counted(pending[id].status, outcomes(id)) == counter then 1 else 0)
  }

  function DueBelow(pending: seq<Pending>, n: nat, now: int): seq<nat>
    requires n <= |pending|
  {
    if n == 0 then [] else DueBelow(pending, n - 1, now) + if Due(pending[n - 1], now) then [n - 1] else []
  }

  lemma {:induction false} DueRows(pending: seq<Pending>, n: nat, now: int)
    requires n <= |pending|
    ensures var todo := DueBelow(pending, n, now);
            && NoRepeats(todo)
            && forall i :: 0 <= i < |todo| ==> todo[i] < n && Due(pending[todo[i]], now)
  {
    if n == 0 {
    } else {
      DueRows(pending, n - 1, now);
    }
  }

  function EventsAfterOutcome(events: map<string, Event>, p: Pending, outcome: Outcome): (r: map<string, Event>)
    ensures r.Keys == events.Keys
  {
    if outcome.Succeeded? && !SuccessThrows(events, p, outcome.txId) then EventsAfterSuccess(events, p, outcome.txId)
        else events
  }

  function EventsAfterAll(events: map<string, Event>, pending: seq<Pending>, todo: seq<nat>,
                          outcomes: nat -> Outcome): map<string, Event>
    requires forall i :: 0 <= i < |todo| ==> todo[i] < |pending|
  {
    if todo == [] then events
    else
      var id := todo[|todo| - 1];
      EventsAfterOutcome(EventsAfterAll(events, pending, todo[..|todo| - 1], outcomes), pending[id], outcomes(id))
  }

  predicate RowSettled(events: map<string, Event>, before: seq<Pending>, after: seq<Pending>, todo: seq<nat>,
                       outcomes: nat -> Outcome, endedAt: nat -> int, id: nat)
    requires id < |before| == |after|
  {
    after[id] == if id in todo then Settled(events, Lock(before[id]), before[id], outcomes(id), endedAt(id))
      else before[id]
  }

  ghost predicate RowsSettled(events: map<string, Event>, before: seq<Pending>, after: seq<Pending>, todo: seq<nat>,
                              outcomes: nat -> Outcome, endedAt: nat -> int)
  {
    && |after| == |before|
    && (forall i :: 0 <= i < |todo| ==> todo[i] < |before|)
    && (forall id: nat :: id < |before| ==> RowSettled(events, before, after, todo, outcomes, endedAt, id))
  }

  lemma TakeOne(todo: seq<nat>, i: nat)
    requires NoRepeats(todo) && i < |todo|
    ensures todo[..i + 1] == todo[..i] + [todo[i]] && todo[i] !in todo[..i]
    ensures todo[..i + 1][..i] == todo[..i]
  {
  }

  lemma SettledReadsKeys(events: map<string, Event>, events': map<string, Event>, row: Pending, outcome: Outcome,
                         now: int)
    requires events.Keys == EventsAfterOutcome(events', row, outcome).Keys
    ensures Settled(events, Lock(row), row, outcome, now) == Settled(events', Lock(row), row, outcome, now)
  {
  }

  lemma OneMoreSettled(events: map<string, Event>, rows: seq<Pending>, before: seq<Pending>, after: seq<Pending>,
                       todo: seq<nat>, id: nat, outcomes: nat -> Outcome, endedAt: nat -> int)
    requires RowsSettled(events, rows, before, todo, outcomes, endedAt) && id < |rows| && id !in todo
    requires after == before[id := Settled(events, Lock(rows[id]), rows[id], outcomes(id), endedAt(id))]
    ensures RowsSettled(events, rows, after, todo + [id], outcomes, endedAt)
  {
    forall k: nat | k < |rows| ensures RowSettled(events, rows, after, todo + [id], outcomes, endedAt, k) {
      assert RowSettled(events, rows, before, todo, outcomes, endedAt, k);
    }
  }

  lemma OneMoreCounted(before: seq<Pending>, after: seq<Pending>, todo: seq<nat>, id: nat, outcomes: nat -> Outcome,
                       counter: TxStatus)
    requires id < |before| == |after| && id !in todo && after == before[id := after[id]]
    ensures Counting(after, todo + [id], outcomes, counter)
            == Counting(before, todo, outcomes, counter) + if Counted(after[id].status, outcomes(id)) == counter then 1
              else 0
  {
    var f := (id: nat) => if id < |after| && Counted(after[id].status, outcomes(id)) == counter then 1 else 0;
    SumAppend(todo, id, f);
    SumEqual(todo, f, (id: nat) => if id < |before| && Counted(before[id].status, outcomes(id)) == counter then 1
      else 0);
  }

  /** The retry loop after the rows in `done`. */
  ghost predicate Progress(events0: map<string, Event>, rows: seq<Pending>, events: map<string, Event>,
                           pending: seq<Pending>, done: seq<nat>, outcomes: nat -> Outcome, endedAt: nat -> int,
                           succeeded: nat, dlq: nat)
  {
    && RowsSettled(events0, rows, pending, done, outcomes, endedAt)
    && events.Keys == events0.Keys && events == EventsAfterAll(events0, rows, done, outcomes)
    && succeeded == Counting(pending, done, outcomes, SUCCESS) && dlq == Counting(pending, done, outcomes, DLQ)
  }

  lemma ProgressNext(events0: map<string, Event>, rows: seq<Pending>, events: map<string, Event>, before: seq<Pending>,
                     after: seq<Pending>, done: seq<nat>, id: nat, outcomes: nat -> Outcome, endedAt: nat -> int,
                     succeeded: nat, dlq: nat)
    requires Progress(events0, rows, events, before, done, outcomes, endedAt, succeeded, dlq) && id < |rows|
             && id !in done
    requires after == before[id := Settled(events, Lock(rows[id]), rows[id], outcomes(id), endedAt(id))]
    ensures var counted := Counted(after[id].status, outcomes(id));
            Progress(events0, rows, EventsAfterOutcome(events, rows[id], outcomes(id)), after, done + [id], outcomes,
              endedAt,
                     succeeded + (if counted.SUCCESS? then 1 else 0), dlq + (if counted.DLQ? then 1 else 0))
  {
    SettledReadsKeys(events0, events, rows[id], outcomes(id), endedAt(id));
    OneMoreSettled(events0, rows, before, after, done, id, outcomes, endedAt);
    OneMoreCounted(before, after, done, id, outcomes, SUCCESS);
    OneMoreCounted(before, after, done, id, outcomes, DLQ);
    assert (done + [id])[..|done|] == done;
  }
}
