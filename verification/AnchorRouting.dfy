/** Which events a batch takes, and to which chain each of them goes. */
module AnchorRouting {
  import opened Common
  import opened AnchorTables
  import opened AnchorServices

  // ----- what is taken -----

  /** A batch of at most fifty events, ten when nothing is asked for. */
  lemma LimitIsClamped(limit: Option<int>)
    ensures 1 <= Limit(limit) <= 50
    ensures limit == None ==> Limit(limit) == 10
    ensures limit.Some? && 1 <= limit.value <= 50 ==> Limit(limit) == limit.value
    ensures limit.Some? && limit.value < 1 ==> Limit(limit) == 1
    ensures limit.Some? && limit.value > 50 ==> Limit(limit) == 50
  {
  }

  /** Approved or waiting for funds, signed, and not anchored or in anybody's hands. */
  predicate Ready(e: Event) {
    && e.status in {APPROVED, PENDING_FUNDS} && e.signatureHash != None
    && e.dltTxId in {None, Some("RETRY_QUEUED")}
  }

  /** A tenant or asset that is asked for and not empty narrows the batch to it; an empty text next to one that is not
      is taken by the letter. */
  predicate AskedFor(e: Event, tenant: Option<string>, asset: Option<string>) {
    || (tenant in {None, Some("")} && asset in {None, Some("")})
    || (tenant in {None, Some(e.tenantId)} && asset in {None, Some(e.assetId)})
  }

  lemma QualifiesIff(e: Event, tenant: Option<string>, asset: Option<string>)
    ensures Qualifies(e, tenant, asset) <==> Ready(e) && AskedFor(e, tenant, asset)
  {
  }

  /** Every event of a batch is ready and of the tenant and asset asked for, it carries the signature of the table, and
      every ready event of them is in the batch of a full scan. */
  lemma {:induction false} BatchIsWhatWasAskedFor(events: map<string, Event>, ids: seq<string>, tenant: Option<string>,
                                                  asset: Option<string>, id: string)
    requires Listed(events, ids) && id in ids
    ensures var batch := Selected(events, ids, tenant, asset);
            && (id in IdsOf(batch) <==> Ready(events[id]) && AskedFor(events[id], tenant, asset))
            && forall i :: 0 <= i < |batch| && batch[i].id == id ==>
                 && batch[i].tenantId == events[id].tenantId && batch[i].assetId == events[id].assetId
                 && Some(batch[i].signatureHash) == events[id].signatureHash
  {
    SelectedAreClaimable(events, ids, tenant, asset);
    QualifiesIff(events[id], tenant, asset);
  }

  /** A batch asked for by one tenant leaves every other tenant's events as they are, whatever the chains answer. */
  lemma {:induction false} OtherTenantsAreLeftAlone(events: map<string, Event>, pending: seq<Pending>, ids: seq<string>,
                                                    tenant: string, asset: Option<string>, works: seq<Work>,
                                                    chainOf: Claimed -> string, answers: string -> Answer, id: string)
    requires Listed(events, ids) && id in events && tenant != "" && events[id].tenantId != tenant
    requires multiset(works) == multiset(Assigned(Selected(events, ids, Some(tenant), asset), chainOf))
    ensures var batch := Selected(events, ids, Some(tenant), asset);
            var r := ServeAll(Tables(Claim(events, IdsOf(batch)), pending), works, answers);
            r.events[id] == events[id]
  {
    var batch := Selected(events, ids, Some(tenant), asset);
    BatchOutcome(events, pending, ids, Some(tenant), asset, chainOf, works, answers);
    if id in IdsOf(batch) {
      SelectedAreClaimable(events, ids, Some(tenant), asset);
      QualifiesIff(events[id], Some(tenant), asset);
    }
  }

  // ----- where it goes -----

  predicate AllSpace(s: string) {
    forall i :: 0 <= i < |s| ==> IsSpace(s[i])
  }

  /** Neither begins nor ends with white space. */
  predicate Trimmed(s: string) {
    s != "" ==> !IsSpace(s[0]) && !IsSpace(s[|s| - 1])
  }

  lemma {:induction false} LeadingSpaceGoes(pad: string, core: string)
    requires AllSpace(pad) && (core != "" ==> !IsSpace(core[0]))
    ensures TrimStart(pad + core) == core
  {
    if pad == "" {
      assert pad + core == core;
    } else {
      assert (pad + core)[1..] == pad[1..] + core;
      LeadingSpaceGoes(pad[1..], core);
    }
  }

  lemma {:induction false} TrailingSpaceGoes(core: string, pad: string)
    requires AllSpace(pad) && (core != "" ==> !IsSpace(core[|core| - 1]))
    ensures TrimEnd(core + pad) == core
  {
    if pad == "" {
      assert core + pad == core;
    } else {
      assert (core + pad)[..|core| + |pad| - 1] == core + pad[..|pad| - 1];
      TrailingSpaceGoes(core, pad[..|pad| - 1]);
    }
  }

  function Capitals(s: string): string {
    seq(|s|, i requires 0 <= i < |s| => if 'a' <= s[i] <= 'z' then s[i] - ' ' else s[i])
  }

  /** A chain's name is what is left of it between any white space, in capital letters. */
  lemma NameIsTheTrimmedCapitals(before: string, core: string, after: string)
    requires AllSpace(before) && Trimmed(core) && AllSpace(after)
    ensures Normal(before + core + after) == Capitals(core)
  {
    if core == "" {
      assert before + core + after == (before + after) + "";
      LeadingSpaceGoes(before + after, "");
    } else {
      assert before + core + after == before + (core + after);
      LeadingSpaceGoes(before, core + after);
      TrailingSpaceGoes(core, after);
    }
    assert TrimEnd(TrimStart(before + core + after)) == core;
  }

  lemma CapitalsIgnoreCase(a: string, b: string)
    requires Lower(a) == Lower(b)
    ensures Capitals(a) == Capitals(b)
  {
    forall i | 0 <= i < |a| ensures Capitals(a)[i] == Capitals(b)[i] {
      assert Lower(a)[i] == Lower(b)[i];
    }
  }

  /** Padding a chain's name or changing its case never changes where its events go. */
  lemma PaddingAndCaseNeverMatter(before: string, a: string, b: string, after: string)
    requires AllSpace(before) && AllSpace(after) && Trimmed(a) && Trimmed(b) && Lower(a) == Lower(b)
    ensures Normal(before + a + after) == Normal(b)
  {
    NameIsTheTrimmedCapitals(before, a, after);
    NameIsTheTrimmedCapitals("", b, "");
    assert "" + b + "" == b;
    CapitalsIgnoreCase(a, b);
  }

  predicate NoSmallLetters(s: string) {
    forall i :: 0 <= i < |s| ==> !('a' <= s[i] <= 'z')
  }

  lemma CapitalsStay(chain: string)
    requires Trimmed(chain) && NoSmallLetters(chain)
    ensures Normal(chain) == chain
  {
    NameIsTheTrimmedCapitals("", chain, "");
    assert "" + chain + "" == chain;
    assert Capitals(chain) == chain;
  }

  /** An event goes to its own tenant's chain, and to Stellar when the tenant has none. */
  lemma EventsGoToTheirTenantsChain(chains: map<string, string>, e: Claimed)
    requires e.tenantId in chains ==> Trimmed(chains[e.tenantId]) && NoSmallLetters(chains[e.tenantId])
    ensures e.tenantId in chains ==> Router(chains)(e) == chains[e.tenantId]
    ensures e.tenantId !in chains ==> Router(chains)(e) == "STELLAR"
  {
    if e.tenantId in chains {
      CapitalsStay(chains[e.tenantId]);
    } else {
      var stellar := "STELLAR";
      assert stellar[0] == 'S' && stellar[6] == 'R';
      CapitalsStay(stellar);
    }
  }

  lemma {:induction false} GroupHasOnlyItsOwn(batch: seq<Claimed>, chainOf: Claimed -> string, chain: string)
    ensures forall e :: e in OfChain(batch, chainOf, chain) <==> e in batch && chainOf(e) == chain
  {
    if batch == [] {
    } else {
      var n := |batch| - 1;
      assert batch == batch[..n] + [batch[n]];
      GroupHasOnlyItsOwn(batch[..n], chainOf, chain);
    }
  }

  /** Within its chain an event is worked off in the order of the batch. */
  lemma {:induction false} GroupsAscend(batch: seq<Claimed>, chainOf: Claimed -> string, chain: string)
    requires AscendingIds(batch)
    ensures AscendingIds(OfChain(batch, chainOf, chain))
    ensures forall e :: e in OfChain(batch, chainOf, chain) <==> e in batch && chainOf(e) == chain
  {
    GroupHasOnlyItsOwn(batch, chainOf, chain);
    if batch == [] {
    } else {
      var n := |batch| - 1;
      var before := OfChain(batch[..n], chainOf, chain);
      GroupsAscend(batch[..n], chainOf, chain);
      if chainOf(batch[n]) == chain {
        forall i | 0 <= i < |before| ensures Less(before[i].id, batch[n].id) {
          assert before[i] in before;
          var k :| 0 <= k < n && batch[..n][k] == before[i];
          assert batch[k] == before[i];
        }
        AppendAscends(before, batch[n]);
      }
    }
  }

  /** The batch reaches this chain before that one. */
  ghost predicate ComesFirst(batch: seq<Claimed>, chainOf: Claimed -> string, chain: string, other: string) {
    exists k :: 0 <= k < |batch| && chainOf(batch[k]) == chain && forall m :: 0 <= m <= k ==> chainOf(batch[m]) != other
  }

  lemma {:induction false} EveryChainAppears(batch: seq<Claimed>, chainOf: Claimed -> string, chain: string)
    ensures chain in ChainsIn(batch, chainOf) <==> exists k :: 0 <= k < |batch| && chainOf(batch[k]) == chain
  {
    if batch == [] {
    } else {
      var n := |batch| - 1;
      EveryChainAppears(batch[..n], chainOf, chain);
      if k :| 0 <= k < n && chainOf(batch[..n][k]) == chain {
        assert chainOf(batch[k]) == chain;
      }
      if k :| 0 <= k < |batch| && chainOf(batch[k]) == chain {
        assert k < n ==> chainOf(batch[..n][k]) == chain;
      }
    }
  }

  /** Chains are worked off in the order in which the batch first reaches them. */
  lemma {:induction false} ChainsInOrderOfAppearance(batch: seq<Claimed>, chainOf: Claimed -> string, i: nat, j: nat)
    requires i < j < |ChainsIn(batch, chainOf)|
    ensures ComesFirst(batch, chainOf, ChainsIn(batch, chainOf)[i], ChainsIn(batch, chainOf)[j])
  {
    var n := |batch| - 1;
    var before, order := ChainsIn(batch[..n], chainOf), ChainsIn(batch, chainOf);
    if j < |before| {
      ChainsInOrderOfAppearance(batch[..n], chainOf, i, j);
      var k :| 0 <= k < n && chainOf(batch[..n][k]) == order[i]
               && forall m :: 0 <= m <= k ==> chainOf(batch[..n][m]) != order[j];
      assert forall m :: 0 <= m <= k ==> batch[m] == batch[..n][m];
      assert chainOf(batch[k]) == order[i];
    } else {
      EveryChainAppears(batch[..n], chainOf, order[i]);
      EveryChainAppears(batch[..n], chainOf, order[j]);
      var k :| 0 <= k < n && chainOf(batch[..n][k]) == order[i];
      assert forall m :: 0 <= m < n ==> batch[m] == batch[..n][m];
      assert chainOf(batch[k]) == order[i];
    }
  }

  // ----- what the queue leaves to the retry worker -----

  /** A fresh row for this event, on the chain it was meant for. */
  predicate Queued(p: Pending, work: Work) {
    p == Pending(work.event.tenantId, work.event.id, ANCHOR, work.chain, TxStatus.PENDING, 0, 5, None, false)
  }

  /** Refused for anything but lack of funds. */
  predicate Bounced(work: Work, answers: string -> Answer) {
    answers(work.event.id).Refused? && !LacksFunds(answers(work.event.id).message)
  }

  /** The retry rows of a batch are those of its bounced events: one each, in the order they were worked off. */
  lemma {:induction false} BouncedEventsAreQueued(works: seq<Work>, answers: string -> Answer)
    returns (bounced: seq<Work>)
    ensures |RetryRows(works, answers)| == |bounced|
    ensures forall k :: 0 <= k < |bounced| ==>
              Queued(RetryRows(works, answers)[k], bounced[k]) && Bounced(bounced[k], answers)
    ensures forall work :: work in bounced <==> work in works && Bounced(work, answers)
  {
    if works == [] {
      bounced := [];
    } else {
      var last := works[|works| - 1];
      bounced := BouncedEventsAreQueued(works[..|works| - 1], answers);
      assert works == works[..|works| - 1] + [last];
      if Bounced(last, answers) {
        bounced := bounced + [last];
      }
    }
  }
}
