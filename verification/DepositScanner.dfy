/** The EVM deposit scanner: each successful scan covers a block range ending at the chain head, and deposits are
    inserted at most once per transaction hash. */
module DepositScanner {
  import opened Common

  datatype Transfer = Transfer(txHash: string, contract: string, to: string, value: nat, block: int)

  datatype Deposit = Deposit(txHash: string, walletAddress: string, amount: nat, block: int)

  // ----- the range of one scan -----

  function Max(a: int, b: int): int {
    if a < b then b else a
  }

  /** `lastScannedBlock.get(chain) || currentBlock - 100`: an absent entry and a stored zero both fall back. */
  function LastScanned(last: Option<int>, head: int): int {
    if last.None? || last.value == 0 then head - 100 else last.value
  }

  function FromBlock(last: Option<int>, head: int): int {
    Max(LastScanned(last, head) + 1, head - 500)
  }

  /** The blocks from lo up to and including hi, in order. */
  function Interval(lo: int, hi: int): (r: seq<int>)
    ensures |r| == if lo <= hi then hi - lo + 1 else 0
    ensures forall i :: 0 <= i < |r| ==> r[i] == lo + i
  {
    seq(if lo <= hi then hi - lo + 1 else 0, i => lo + i)
  }

  /** All blocks scanned by successive successful scans, in scan order, repeats included. */
  function Scanned(heads: seq<int>): seq<int> {
    if heads == [] then []
    else
      var n := |heads| - 1;
      Scanned(heads[..n]) + Interval(FromBlock(if n == 0 then None else Some(heads[n - 1]), heads[n]), heads[n])
  }

  /** A scan picks up exactly where the previous one stopped. */
  predicate Continues(prev: int, head: int) {
    if prev == 0 then head == 100 else head - prev <= 501
  }

  predicate NonDecreasing(heads: seq<int>) {
    forall i, j :: 0 <= i <= j < |heads| ==> heads[i] <= heads[j]
  }

  /** Every scan but the first continues the one before it. */
  predicate Continuous(heads: seq<int>) {
    var n := |heads| - 1;
    n <= 0 || (Continuous(heads[..n]) && Continues(heads[n - 1], heads[n]))
  }

  lemma StepRange(prev: int, head: int)
    requires 0 <= prev <= head
    ensures Continues(prev, head) ==> FromBlock(Some(prev), head) == prev + 1
    ensures !Continues(prev, head) ==> FromBlock(Some(prev), head) != prev + 1 && FromBlock(Some(prev), head) <= head
  {
  }

  lemma IntervalsJoin(lo: int, mid: int, hi: int)
    requires lo <= mid + 1 && mid <= hi
    ensures Interval(lo, mid) + Interval(mid + 1, hi) == Interval(lo, hi)
  {
  }

  lemma {:induction false} ContinuousScansTile(heads: seq<int>)
    requires |heads| > 0 && heads[0] >= 0 && NonDecreasing(heads)
    requires Continuous(heads)
    ensures Scanned(heads) == Interval(heads[0] - 99, heads[|heads| - 1])
    ensures heads[0] <= heads[|heads| - 1]
  {
    var n := |heads| - 1;
    if n == 0 {
      assert Scanned(heads[..0]) == [];
    } else {
      var prev := heads[..n];
      ContinuousScansTile(prev);
      StepRange(heads[n - 1], heads[n]);
      IntervalsJoin(heads[0] - 99, heads[n - 1], heads[n]);
    }
  }

  lemma {:induction false} ScannedExtends(heads: seq<int>, k: nat)
    requires k <= |heads|
    ensures Scanned(heads[..k]) <= Scanned(heads)
    decreases |heads|
  {
    if k == |heads| {
      assert heads[..k] == heads;
    } else {
      ScannedExtends(heads[..|heads| - 1], k);
      assert heads[..|heads| - 1][..k] == heads[..k];
    }
  }

  lemma BreakShows(heads: seq<int>) returns (position: nat)
    requires |heads| > 1 && heads[0] >= 0 && NonDecreasing(heads)
    requires !Continues(heads[|heads| - 2], heads[|heads| - 1]) && Continuous(heads[..|heads| - 1])
    ensures position < |Scanned(heads)| && Scanned(heads)[position] != heads[0] - 99 + position
  {
    var n := |heads| - 1;
    var before := heads[..n];
    ContinuousScansTile(before);
    StepRange(heads[n - 1], heads[n]);
    assert Scanned(heads) == Scanned(before) + Interval(FromBlock(Some(heads[n - 1]), heads[n]), heads[n]);
    position := |Scanned(before)|;
  }

  lemma PrefixRefutes(part: seq<int>, whole: seq<int>, position: nat, lo: int, hi: int)
    requires part <= whole && position < |part| && part[position] != lo + position
    ensures whole != Interval(lo, hi)
  {
    assert whole[position] == part[position];
  }

  /** The first scan that does not pick up where the last one stopped breaks the tiling for good. */
  lemma BrokenScansDoNotTile(heads: seq<int>, k: nat)
    requires 0 < k < |heads| && heads[0] >= 0 && NonDecreasing(heads)
    requires !Continues(heads[k - 1], heads[k]) && Continuous(heads[..k])
    ensures Scanned(heads) != Interval(heads[0] - 99, heads[|heads| - 1])
  {
    var upto := heads[..k + 1];
    assert upto[..k] == heads[..k];
    var position := BreakShows(upto);
    ScannedExtends(heads, k + 1);
    PrefixRefutes(Scanned(upto), Scanned(heads), position, heads[0] - 99, heads[|heads| - 1]);
  }

  lemma {:induction false} FirstBreak(heads: seq<int>) returns (k: nat)
    requires !Continuous(heads)
    ensures 0 < k < |heads| && !Continues(heads[k - 1], heads[k]) && Continuous(heads[..k])
  {
    var n := |heads| - 1;
    if Continuous(heads[..n]) {
      k := n;
    } else {
      k := FirstBreak(heads[..n]);
      assert heads[..n][..k] == heads[..k];
    }
  }

  /** Coverage: with heads that never decrease, the scanned ranges tile the interval from 99 blocks before the first
      head to the latest head, without gap or overlap, if and only if every head is within 501 of the one before it, a
      previous head of zero excepted, which counts as no previous head at all. */
  lemma {:induction false} ScansTileIff(heads: seq<int>)
    requires |heads| > 0 && heads[0] >= 0 && NonDecreasing(heads)
    ensures Scanned(heads) == Interval(heads[0] - 99, heads[|heads| - 1])
            <==> Continuous(heads)
  {
    if Continuous(heads) {
      ContinuousScansTile(heads);
    } else {
      var k := FirstBreak(heads);
      BrokenScansDoNotTile(heads, k);
    }
  }

  // ----- inserting deposits -----

  predicate Matches(t: Transfer, contracts: seq<string>, wallets: set<string>) {
    t.contract in contracts && t.to in wallets
  }

  function DepositOf(t: Transfer): Deposit {
    Deposit(t.txHash, t.to, t.value, t.block)
  }

  predicate Known(deposits: seq<Deposit>, txHash: string) {
    exists i :: 0 <= i < |deposits| && deposits[i].txHash == txHash
  }

  /** `deposit.create` under the uniqueness of txHash; a clash means already processed. */
  function Upserted(deposits: seq<Deposit>, t: Transfer): seq<Deposit> {
    if Known(deposits, t.txHash) then deposits else deposits + [DepositOf(t)]
  }

  function Ingested(deposits: seq<Deposit>, events: seq<Transfer>): seq<Deposit> {
    if events == [] then deposits else Upserted(Ingested(deposits, events[..|events| - 1]), events[|events| - 1])
  }

  /** What the provider answers for one contract: its transfers to monitored wallets in the range. */
  function Query(ledger: seq<Transfer>, contract: string, wallets: set<string>, from: int,
                 head: int): (r: seq<Transfer>)
    ensures forall t :: t in r <==> t in ledger && t.contract == contract && t.to in wallets && from <= t.block <= head
  {
    if ledger == [] then []
    else
      var t := ledger[|ledger| - 1];
      assert forall u :: u in ledger <==> u in ledger[..|ledger| - 1] || u == t;
      Query(ledger[..|ledger| - 1], contract, wallets, from, head)
      + if t.contract == contract && t.to in wallets && from <= t.block <= head then [t] else []
  }

  function IngestedContracts(deposits: seq<Deposit>, ledger: seq<Transfer>, contracts: seq<string>,
                             wallets: set<string>, from: int, head: int): seq<Deposit>
  {
    if contracts == [] then deposits
    else
      var n := |contracts| - 1;
      Ingested(IngestedContracts(deposits, ledger, contracts[..n], wallets, from, head),
               Query(ledger, contracts[n], wallets, from, head))
  }

  lemma NextContract(deposits: seq<Deposit>, ledger: seq<Transfer>, contracts: seq<string>, i: nat,
                     wallets: set<string>, from: int, head: int)
    requires i < |contracts|
    ensures IngestedContracts(deposits, ledger, contracts[..i + 1], wallets, from, head)
            == Ingested(IngestedContracts(deposits, ledger, contracts[..i], wallets, from, head),
                        Query(ledger, contracts[i], wallets, from, head))
  {
    assert contracts[..i + 1][..i] == contracts[..i];
  }

  /** One attempt at a scan: the head it saw, how many contracts it got through, and how many events of the next one it
      had recorded when something threw. */
  datatype Attempt = Attempt(head: int, answered: nat, recorded: nat)

  predicate Succeeds(contracts: seq<string>, wallets: set<string>, a: Attempt) {
    wallets == {} || a.answered >= |contracts|
  }

  /** What a failed attempt had seen of the contract it failed at. */
  function Partial(ledger: seq<Transfer>, contracts: seq<string>, wallets: set<string>, from: int,
                   a: Attempt): seq<Transfer>
    requires a.answered < |contracts|
  {
    var events := Query(ledger, contracts[a.answered], wallets, from, a.head);
    events[..Least(a.recorded, |events|)]
  }

  function DepositsAfter(last: Option<int>, deposits: seq<Deposit>, ledger: seq<Transfer>, contracts: seq<string>,
                         wallets: set<string>, a: Attempt): seq<Deposit>
  {
    var from := FromBlock(last, a.head);
    if wallets == {} then deposits
    else if a.answered >= |contracts| then IngestedContracts(deposits, ledger, contracts, wallets, from, a.head)
    else
      Ingested(IngestedContracts(deposits, ledger, contracts[..a.answered], wallets, from, a.head),
               Partial(ledger, contracts, wallets, from, a))
  }

  class Observer {
    var lastScannedBlock: map<string, int>
    var deposits: seq<Deposit>

    constructor ()
      ensures lastScannedBlock == map[] && deposits == []
    {
      lastScannedBlock := map[];
      deposits := [];
    }

    method UpsertDeposit(t: Transfer) returns (isNew: bool)
      modifies this`deposits
      ensures deposits == Upserted(old(deposits), t)
      ensures |deposits| == |old(deposits)| + if isNew then 1 else 0
    {
      for i := 0 to |deposits|
        invariant forall j :: 0 <= j < i ==> deposits[j].txHash != t.txHash
      {
        if deposits[i].txHash == t.txHash {
          return false;
        }
      }
      deposits := deposits + [Deposit(t.txHash, t.to, t.value, t.block)];
      return true;
    }

    /** The inner loop of a scan over the events of one contract. */
    method RecordEvents(events: seq<Transfer>) returns (count: nat)
      modifies this`deposits
      ensures deposits == Ingested(old(deposits), events)
      ensures |deposits| == |old(deposits)| + count
    {
      count := 0;
      for k := 0 to |events|
        invariant deposits == Ingested(old(deposits), events[..k])
        invariant |deposits| == |old(deposits)| + count
      {
        assert events[..k + 1][..k] == events[..k];
        var isNew := UpsertDeposit(events[k]);
        if isNew {
          count := count + 1;
        }
      }
      assert events[..|events|] == events;
    }

    /** `scanEVMChain`, up to the confirmation check. The result is absent when a query or an insert throws; then the
        last scanned block stays where it was, and so do the deposits recorded until then. */
    method ScanEVMChain(chain: string, ledger: seq<Transfer>, contracts: seq<string>, wallets: set<string>, a: Attempt)
      returns (newDeposits: Option<nat>)
      modifies this
      ensures var last := if chain in old(lastScannedBlock) then Some(old(lastScannedBlock)[chain]) else None;
              deposits == DepositsAfter(last, old(deposits), ledger, contracts, wallets, a)
      ensures lastScannedBlock
              == if Succeeds(contracts, wallets, a) then old(lastScannedBlock)[chain := a.head]
                else old(lastScannedBlock)
      ensures newDeposits == if Succeeds(contracts, wallets, a) then Some(|deposits| - |old(deposits)|) else None
    {
      var currentBlock := a.head;
      ghost var last := if chain in lastScannedBlock then Some(lastScannedBlock[chain]) else None;
      var stored := if chain in lastScannedBlock then lastScannedBlock[chain] else 0;
      var lastScanned := if stored == 0 then currentBlock - 100 else stored;
      var fromBlock := if lastScanned + 1 < currentBlock - 500 then currentBlock - 500 else lastScanned + 1;
      assert fromBlock == FromBlock(last, currentBlock);
      if wallets == {} {
        lastScannedBlock := lastScannedBlock[chain := currentBlock];
        return Some(0);
      }
      var count := 0;
      for i := 0 to |contracts|
        invariant i <= a.answered
        invariant deposits == IngestedContracts(old(deposits), ledger, contracts[..i], wallets, fromBlock, currentBlock)
        invariant |deposits| == |old(deposits)| + count
        invariant lastScannedBlock == old(lastScannedBlock)
      {
        NextContract(old(deposits), ledger, contracts, i, wallets, fromBlock, currentBlock);
        var events := Query(ledger, contracts[i], wallets, fromBlock, currentBlock);
        if i >= a.answered {
          var _ := RecordEvents(events[..Least(a.recorded, |events|)]);
          return None;
        }
        var found := RecordEvents(events);
        count := count + found;
      }
      assert contracts[..|contracts|] == contracts;
      lastScannedBlock := lastScannedBlock[chain := currentBlock];
      return Some(count);
    }
  }

  // ----- deposits over a run of scans -----

  datatype Progress = Progress(last: Option<int>, deposits: seq<Deposit>)

  function Scan(p: Progress, ledger: seq<Transfer>, contracts: seq<string>, wallets: set<string>,
                a: Attempt): Progress {
    Progress(if Succeeds(contracts, wallets, a) then Some(a.head) else p.last,
             DepositsAfter(p.last, p.deposits, ledger, contracts, wallets, a))
  }

  function Scans(ledger: seq<Transfer>, contracts: seq<string>, wallets: set<string>,
                 attempts: seq<Attempt>): Progress {
    if attempts == [] then Progress(None, [])
    else Scan(Scans(ledger, contracts, wallets, attempts[..|attempts| - 1]), ledger, contracts, wallets,
      attempts[|attempts| - 1])
  }

  /** The heads of the attempts that succeeded. */
  function Heads(contracts: seq<string>, wallets: set<string>, attempts: seq<Attempt>): seq<int> {
    if attempts == [] then []
    else
      Heads(contracts, wallets, attempts[..|attempts| - 1])
      + if Succeeds(contracts, wallets, attempts[|attempts| - 1]) then [attempts[|attempts| - 1].head] else []
  }

  ghost predicate OnePerHash(deposits: seq<Deposit>) {
    forall i, j :: 0 <= i < j < |deposits| ==> deposits[i].txHash != deposits[j].txHash
  }

  /** The deposit of this transfer: its transaction and block, and to the receiving wallet the amount sent. */
  predicate IsFor(d: Deposit, t: Transfer) {
    d.txHash == t.txHash && d.walletAddress == t.to && d.amount == t.value && d.block == t.block
  }

  ghost predicate HasSource(d: Deposit, ledger: seq<Transfer>, contracts: seq<string>, wallets: set<string>) {
    exists t :: t in ledger && Matches(t, contracts, wallets) && IsFor(d, t)
  }

  ghost predicate FromLedger(deposits: seq<Deposit>, ledger: seq<Transfer>, contracts: seq<string>,
                             wallets: set<string>) {
    forall i :: 0 <= i < |deposits| ==> HasSource(deposits[i], ledger, contracts, wallets)
  }

  lemma UpsertedFacts(deposits: seq<Deposit>, t: Transfer)
    requires OnePerHash(deposits)
    ensures OnePerHash(Upserted(deposits, t)) && deposits <= Upserted(deposits, t)
            && Known(Upserted(deposits, t), t.txHash)
  {
    if !Known(deposits, t.txHash) {
      assert Upserted(deposits, t)[|deposits|].txHash == t.txHash;
    }
  }

  lemma {:induction false} IngestedFacts(deposits: seq<Deposit>, events: seq<Transfer>)
    requires OnePerHash(deposits)
    ensures var after := Ingested(deposits, events);
            && OnePerHash(after)
            && deposits <= after
            && (forall t :: t in events ==> Known(after, t.txHash))
  {
    if events == [] {
    } else {
      var n := |events| - 1;
      IngestedFacts(deposits, events[..n]);
      var before, after := Ingested(deposits, events[..n]), Ingested(deposits, events);
      UpsertedFacts(before, events[n]);
      KnownStays(before, after);
      assert forall t :: t in events <==> t in events[..n] || t == events[n];
    }
  }

  /** What is new after an ingest comes from its events. */
  lemma {:induction false} IngestedSources(deposits: seq<Deposit>, events: seq<Transfer>)
    ensures var after := Ingested(deposits, events);
            && deposits <= after
            && (forall i :: |deposits| <= i < |after| ==> exists t :: t in events && after[i] == DepositOf(t))
  {
    if events == [] {
    } else {
      var n := |events| - 1;
      IngestedSources(deposits, events[..n]);
      assert events[n] in events && forall t :: t in events[..n] ==> t in events;
    }
  }

  lemma KnownStays(before: seq<Deposit>, after: seq<Deposit>)
    requires before <= after
    ensures forall h :: Known(before, h) ==> Known(after, h)
  {
    forall h | Known(before, h) ensures Known(after, h) {
      var i :| 0 <= i < |before| && before[i].txHash == h;
      assert after[i].txHash == h;
    }
  }

  lemma IngestedFromLedger(deposits: seq<Deposit>, events: seq<Transfer>, ledger: seq<Transfer>, contracts: seq<string>,
                           wallets: set<string>)
    requires OnePerHash(deposits) && FromLedger(deposits, ledger, contracts, wallets)
    requires forall t :: t in events ==> t in ledger && Matches(t, contracts, wallets)
    ensures FromLedger(Ingested(deposits, events), ledger, contracts, wallets)
  {
    IngestedSources(deposits, events);
    var after := Ingested(deposits, events);
    forall i | 0 <= i < |after|
      ensures HasSource(after[i], ledger, contracts, wallets)
    {
      if i < |deposits| {
        assert after[i] == deposits[i];
      } else {
        var t :| t in events && after[i] == DepositOf(t);
        assert t in ledger && Matches(t, contracts, wallets) && IsFor(after[i], t);
      }
    }
  }

  lemma {:induction false} ContractsFacts(deposits: seq<Deposit>, ledger: seq<Transfer>, queried: seq<string>,
                                          contracts: seq<string>, wallets: set<string>, from: int, head: int)
    requires queried <= contracts
    requires OnePerHash(deposits) && FromLedger(deposits, ledger, contracts, wallets)
    ensures var after := IngestedContracts(deposits, ledger, queried, wallets, from, head);
            && OnePerHash(after)
            && deposits <= after
            && FromLedger(after, ledger, contracts, wallets)
            && (forall t :: t in ledger && Matches(t, queried, wallets) && from <= t.block <= head ==>
                Known(after, t.txHash))
  {
    if queried == [] {
    } else {
      var n := |queried| - 1;
      ContractsFacts(deposits, ledger, queried[..n], contracts, wallets, from, head);
      var before := IngestedContracts(deposits, ledger, queried[..n], wallets, from, head);
      var events := Query(ledger, queried[n], wallets, from, head);
      assert queried[n] == contracts[n];
      IngestedFacts(before, events);
      IngestedFromLedger(before, events, ledger, contracts, wallets);
      KnownStays(before, Ingested(before, events));
      assert forall c :: c in queried <==> c in queried[..n] || c == queried[n];
    }
  }

  lemma ScanFacts(p: Progress, ledger: seq<Transfer>, contracts: seq<string>, wallets: set<string>, a: Attempt)
    requires OnePerHash(p.deposits) && FromLedger(p.deposits, ledger, contracts, wallets)
    ensures var q := Scan(p, ledger, contracts, wallets, a);
            && OnePerHash(q.deposits) && FromLedger(q.deposits, ledger, contracts, wallets)
            && (forall h :: Known(p.deposits, h) ==> Known(q.deposits, h))
            && (Succeeds(contracts, wallets, a) ==>
                  forall t ::
                    t in ledger && Matches(t, contracts, wallets) && FromBlock(p.last, a.head) <= t.block <= a.head ==>
                      Known(q.deposits, t.txHash))
  {
    if wallets != {} {
      var from := FromBlock(p.last, a.head);
      var end := Scan(p, ledger, contracts, wallets, a).deposits;
      if a.answered >= |contracts| {
        ContractsFacts(p.deposits, ledger, contracts, contracts, wallets, from, a.head);
      } else {
        ContractsFacts(p.deposits, ledger, contracts[..a.answered], contracts, wallets, from, a.head);
        var reached := IngestedContracts(p.deposits, ledger, contracts[..a.answered], wallets, from, a.head);
        IngestedFacts(reached, Partial(ledger, contracts, wallets, from, a));
        IngestedFromLedger(reached, Partial(ledger, contracts, wallets, from, a), ledger, contracts, wallets);
      }
      KnownStays(p.deposits, end);
    }
  }

  lemma IntervalHolds(lo: int, hi: int, b: int)
    ensures b in Interval(lo, hi) <==> lo <= b <= hi
  {
    if lo <= b <= hi {
      assert Interval(lo, hi)[b - lo] == b;
    }
  }

  lemma {:induction false} IntervalAdds(blocks: seq<int>, lo: int, hi: int)
    ensures forall b :: b in blocks + Interval(lo, hi) <==> b in blocks || lo <= b <= hi
  {
    forall b ensures b in blocks + Interval(lo, hi) <==> b in blocks || lo <= b <= hi {
      IntervalHolds(lo, hi, b);
    }
  }

  lemma {:induction false} ScannedGrows(heads: seq<int>, head: int)
    ensures var last := if heads == [] then None else Some(heads[|heads| - 1]);
            Scanned(heads + [head]) == Scanned(heads) + Interval(FromBlock(last, head), head)
  {
    assert (heads + [head])[..|heads|] == heads;
  }

  /** Every matching transfer of the scanned blocks is among the deposits. */
  ghost predicate Covers(deposits: seq<Deposit>, ledger: seq<Transfer>, contracts: seq<string>, wallets: set<string>,
                         heads: seq<int>) {
    forall t :: t in ledger && Matches(t, contracts, wallets) && t.block in Scanned(heads) ==> Known(deposits, t.txHash)
  }

  /** What a run of scans has reached. */
  ghost predicate Reached(p: Progress, ledger: seq<Transfer>, contracts: seq<string>, wallets: set<string>,
                          heads: seq<int>) {
    && OnePerHash(p.deposits) && FromLedger(p.deposits, ledger, contracts, wallets)
    && p.last == (if heads == [] then None else Some(heads[|heads| - 1]))
    && Covers(p.deposits, ledger, contracts, wallets, heads)
  }

  lemma {:induction false} SuccessExtendsCover(p: Progress, ledger: seq<Transfer>, contracts: seq<string>,
                                               wallets: set<string>, a: Attempt, heads: seq<int>)
    requires Reached(p, ledger, contracts, wallets, heads) && Succeeds(contracts, wallets, a)
    ensures Reached(Scan(p, ledger, contracts, wallets, a), ledger, contracts, wallets, heads + [a.head])
  {
    ScanFacts(p, ledger, contracts, wallets, a);
    ScannedGrows(heads, a.head);
    IntervalAdds(Scanned(heads), FromBlock(p.last, a.head), a.head);
  }

  lemma {:induction false} FailureKeepsCover(p: Progress, ledger: seq<Transfer>, contracts: seq<string>,
                                             wallets: set<string>, a: Attempt, heads: seq<int>)
    requires Reached(p, ledger, contracts, wallets, heads) && !Succeeds(contracts, wallets, a)
    ensures Reached(Scan(p, ledger, contracts, wallets, a), ledger, contracts, wallets, heads)
  {
    ScanFacts(p, ledger, contracts, wallets, a);
  }

  lemma {:induction false} ScansCover(ledger: seq<Transfer>, contracts: seq<string>, wallets: set<string>,
                                      attempts: seq<Attempt>)
    ensures Reached(Scans(ledger, contracts, wallets, attempts), ledger, contracts, wallets,
            Heads(contracts, wallets, attempts))
  {
    if attempts == [] {
    } else {
      var n := |attempts| - 1;
      var earlier, a := attempts[..n], attempts[n];
      ScansCover(ledger, contracts, wallets, earlier);
      var p, before := Scans(ledger, contracts, wallets, earlier), Heads(contracts, wallets, earlier);
      if Succeeds(contracts, wallets, a) {
        SuccessExtendsCover(p, ledger, contracts, wallets, a, before);
        assert Heads(contracts, wallets, attempts) == before + [a.head];
      } else {
        FailureKeepsCover(p, ledger, contracts, wallets, a, before);
        assert Heads(contracts, wallets, attempts) == before;
      }
    }
  }

  lemma KnownHashHasOneDeposit(deposits: seq<Deposit>, h: string)
    requires OnePerHash(deposits) && Known(deposits, h)
    ensures HasOne(deposits, h)
  {
    var i :| 0 <= i < |deposits| && deposits[i].txHash == h;
    assert forall j :: 0 <= j < |deposits| && j != i ==> deposits[j].txHash != h;
  }

  ghost predicate HasOne(deposits: seq<Deposit>, h: string) {
    exists i :: 0 <= i < |deposits| && deposits[i].txHash == h && forall j :: 0 <= j < |deposits| && j != i ==>
      deposits[j].txHash != h
  }

  lemma {:induction false} TiledBlockIsScanned(heads: seq<int>, b: int)
    requires |heads| > 0 && heads[0] >= 0 && NonDecreasing(heads) && Continuous(heads)
    requires heads[0] - 99 <= b <= heads[|heads| - 1]
    ensures b in Scanned(heads)
  {
    ContinuousScansTile(heads);
    IntervalHolds(heads[0] - 99, heads[|heads| - 1], b);
  }

  /** Over any run of scans, failed ones included, on a stable chain and a fixed wallet set, whose successful heads
      never decrease and follow one another closely enough: every matching transfer between 99 blocks before the first
      head and the latest head has exactly one deposit for its transaction hash, and every deposit is a matching
      transfer of the chain. */
  lemma {:induction false} ExactlyOneDepositPerHash(ledger: seq<Transfer>, contracts: seq<string>, wallets: set<string>,
                                                    attempts: seq<Attempt>, t: Transfer)
    requires var heads := Heads(contracts, wallets, attempts);
             && |heads| > 0 && heads[0] >= 0 && NonDecreasing(heads) && Continuous(heads)
             && t in ledger && Matches(t, contracts, wallets) && heads[0] - 99 <= t.block <= heads[|heads| - 1]
    ensures var deposits := Scans(ledger, contracts, wallets, attempts).deposits;
            HasOne(deposits, t.txHash) && FromLedger(deposits, ledger, contracts, wallets)
  {
    var heads := Heads(contracts, wallets, attempts);
    TiledBlockIsScanned(heads, t.block);
    ScansCover(ledger, contracts, wallets, attempts);
    KnownHashHasOneDeposit(Scans(ledger, contracts, wallets, attempts).deposits, t.txHash);
  }

  // ----- several transfers in one transaction -----

  /** The places in the ledger of the matching transfers of an interval. */
  function Places(ledger: seq<Transfer>, contracts: seq<string>, wallets: set<string>, lo: int, hi: int): set<nat> {
    set i: nat | i < |ledger| && Matches(ledger[i], contracts, wallets) && lo <= ledger[i].block <= hi
  }

  /** A transaction sits in one block of the chain. */
  predicate OneBlockPerHash(ledger: seq<Transfer>) {
    forall i, j :: 0 <= i < |ledger| && 0 <= j < |ledger| && ledger[i].txHash == ledger[j].txHash
                   ==> ledger[i].block == ledger[j].block
  }

  /** Each of these transfers has a deposit of its own. */
  ghost predicate HaveTheirOwn(deposits: seq<Deposit>, ledger: seq<Transfer>, places: set<nat>)
    requires forall i <- places :: i < |ledger|
  {
    exists own: map<nat, nat> :: Owns(deposits, ledger, places, own)
  }

  predicate Owns(deposits: seq<Deposit>, ledger: seq<Transfer>, places: set<nat>, own: map<nat, nat>)
    requires forall i <- places :: i < |ledger|
  {
    && own.Keys == places
    && (forall i <- own :: own[i] < |deposits| && IsFor(deposits[own[i]], ledger[i]))
    && (forall i, j :: i in own && j in own && i != j ==> own[i] != own[j])
  }

  /** No two of these transfers share a transaction. */
  predicate HashesDiffer(ledger: seq<Transfer>, places: set<nat>)
    requires forall i <- places :: i < |ledger|
  {
    forall i, j :: i in places && j in places && i != j ==> ledger[i].txHash != ledger[j].txHash
  }

  lemma DepositOfItsOwn(deposits: seq<Deposit>, ledger: seq<Transfer>, contracts: seq<string>, wallets: set<string>,
                        lo: int, hi: int, i: nat, k: nat)
    requires OneBlockPerHash(ledger) && FromLedger(deposits, ledger, contracts, wallets)
    requires HashesDiffer(ledger, Places(ledger, contracts, wallets, lo, hi))
             && i in Places(ledger, contracts, wallets, lo, hi)
    requires k < |deposits| && deposits[k].txHash == ledger[i].txHash
    ensures IsFor(deposits[k], ledger[i])
  {
    var t :| t in ledger && Matches(t, contracts, wallets) && IsFor(deposits[k], t);
    var j: nat :| j < |ledger| && ledger[j] == t;
    assert j in Places(ledger, contracts, wallets, lo, hi);
  }

  /** The deposits are matching transfers, one per transaction, and no matching transfer of the interval is unknown. */
  ghost predicate Recorded(deposits: seq<Deposit>, ledger: seq<Transfer>, contracts: seq<string>, wallets: set<string>,
                           lo: int, hi: int) {
    && OnePerHash(deposits) && FromLedger(deposits, ledger, contracts, wallets)
    && forall i <- Places(ledger, contracts, wallets, lo, hi) :: Known(deposits, ledger[i].txHash)
  }

  lemma OwnDepositsIff(deposits: seq<Deposit>, ledger: seq<Transfer>, contracts: seq<string>, wallets: set<string>,
                       lo: int, hi: int)
    requires OneBlockPerHash(ledger) && Recorded(deposits, ledger, contracts, wallets, lo, hi)
    ensures var places := Places(ledger, contracts, wallets, lo, hi);
            HaveTheirOwn(deposits, ledger, places) <==> HashesDiffer(ledger, places)
  {
    var places := Places(ledger, contracts, wallets, lo, hi);
    if HashesDiffer(ledger, places) {
      var own := map i | i in places :: PlaceOf(deposits, ledger[i].txHash);
      forall i | i in own ensures IsFor(deposits[own[i]], ledger[i]) {
        DepositOfItsOwn(deposits, ledger, contracts, wallets, lo, hi, i, own[i]);
      }
      assert Owns(deposits, ledger, places, own);
    }
    if own: map<nat, nat> :| Owns(deposits, ledger, places, own) {
      OwningSeparates(deposits, ledger, places, own);
    }
  }

  lemma OwningSeparates(deposits: seq<Deposit>, ledger: seq<Transfer>, places: set<nat>, own: map<nat, nat>)
    requires (forall i <- places :: i < |ledger|) && OnePerHash(deposits) && Owns(deposits, ledger, places, own)
    ensures HashesDiffer(ledger, places)
  {
    forall i, j | i in places && j in places && i != j ensures ledger[i].txHash != ledger[j].txHash {
      assert deposits[own[i]].txHash == ledger[i].txHash && deposits[own[j]].txHash == ledger[j].txHash;
      assert own[i] != own[j];
    }
  }

  function PlaceOf(deposits: seq<Deposit>, txHash: string): (k: nat)
    requires Known(deposits, txHash)
    ensures k < |deposits| && deposits[k].txHash == txHash
  {
    var n := |deposits| - 1;
    if deposits[n].txHash == txHash then n
    else
      assert forall i :: 0 <= i < n ==> deposits[..n][i] == deposits[i];
      PlaceOf(deposits[..n], txHash)
  }

  /** Over any run of scans whose successful heads follow one another closely enough: the matching transfers between 99
      blocks before the first head and the latest head have a deposit each, of their own and with their own amount, if
      and only if no two of them were made by one transaction. */
  lemma {:induction false} EveryTransferHasItsDepositIff(ledger: seq<Transfer>, contracts: seq<string>,
                                                         wallets: set<string>, attempts: seq<Attempt>)
    returns (deposits: seq<Deposit>, places: set<nat>)
    requires OneBlockPerHash(ledger)
    requires var heads := Heads(contracts, wallets, attempts);
             |heads| > 0 && heads[0] >= 0 && NonDecreasing(heads) && Continuous(heads)
    ensures deposits == Scans(ledger, contracts, wallets, attempts).deposits
    ensures var heads := Heads(contracts, wallets, attempts);
            places == Places(ledger, contracts, wallets, heads[0] - 99, heads[|heads| - 1])
    ensures (forall i <- places :: i < |ledger|) && (HaveTheirOwn(deposits, ledger, places) <==>
            HashesDiffer(ledger, places))
  {
    var heads := Heads(contracts, wallets, attempts);
    var lo, hi := heads[0] - 99, heads[|heads| - 1];
    deposits := Scans(ledger, contracts, wallets, attempts).deposits;
    places := Places(ledger, contracts, wallets, lo, hi);
    TiledTransfersAreKnown(ledger, contracts, wallets, attempts);
    OwnDepositsIff(deposits, ledger, contracts, wallets, lo, hi);
  }

  lemma {:induction false} TiledTransfersAreKnown(ledger: seq<Transfer>, contracts: seq<string>, wallets: set<string>,
                                                  attempts: seq<Attempt>)
    requires var heads := Heads(contracts, wallets, attempts);
             |heads| > 0 && heads[0] >= 0 && NonDecreasing(heads) && Continuous(heads)
    ensures var heads := Heads(contracts, wallets, attempts);
            Recorded(Scans(ledger, contracts, wallets, attempts).deposits, ledger, contracts, wallets, heads[0] - 99,
              heads[|heads| - 1])
  {
    var heads := Heads(contracts, wallets, attempts);
    ScansCover(ledger, contracts, wallets, attempts);
    forall i | i in Places(ledger, contracts, wallets, heads[0] - 99, heads[|heads| - 1])
      ensures Known(Scans(ledger, contracts, wallets, attempts).deposits, ledger[i].txHash)
    {
      TiledBlockIsScanned(heads, ledger[i].block);
      assert ledger[i] in ledger;
    }
  }

  lemma QueryFindsBoth(first: Transfer, second: Transfer, contract: string, wallets: set<string>, from: int, head: int)
    requires first.contract == second.contract == contract && first.to in wallets && second.to in wallets
    requires from <= first.block <= head && from <= second.block <= head
    ensures Query([first, second], contract, wallets, from, head) == [first, second]
  {
    assert [first, second][..1] == [first] && [first][..0] == [];
    assert Query([first], contract, wallets, from, head) == [] + [first];
    assert Query([first, second], contract, wallets, from, head) == [first] + [second];
  }

  lemma SecondIsDropped(first: Transfer, second: Transfer)
    requires first.txHash == second.txHash
    ensures Ingested([], [first, second]) == [DepositOf(first)]
  {
    assert [first, second][..1] == [first] && [first][..0] == [];
    assert Ingested([], [first]) == [] + [DepositOf(first)] == [DepositOf(first)];
    assert [DepositOf(first)][0].txHash == second.txHash;
  }

  /** Two transfers of one transaction to two wallets: a single deposit, for the first of them only. */
  lemma TwoTransfersOneDeposit(first: Transfer, second: Transfer, contract: string, wallets: set<string>, head: int)
    requires first.txHash == second.txHash && first.contract == second.contract == contract
    requires first.to in wallets && second.to in wallets && head - 99 <= first.block <= head
             && head - 99 <= second.block <= head
    ensures Scans([first, second], [contract], wallets, [Attempt(head, 1, 0)]).deposits == [DepositOf(first)]
  {
    var ledger, attempts := [first, second], [Attempt(head, 1, 0)];
    QueryFindsBoth(first, second, contract, wallets, head - 99, head);
    SecondIsDropped(first, second);
    assert [contract][..0] == [] && attempts[..0] == [];
    assert IngestedContracts([], ledger, [contract], wallets, head - 99, head) == [DepositOf(first)];
    assert Scans(ledger, [contract], wallets, attempts[..0]) == Progress(None, []);
  }
}
