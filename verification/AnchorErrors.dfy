/** What the error messages decide: which failures are final at once, which only wait for funds, and what that makes of
    a pending transaction. */
module AnchorErrors {
  import opened Common
  import opened AnchorTables
  import opened AnchorWorkers
  import opened AnchorProofs
  import opened AnchorServices

  // ----- critical messages -----

  /** The text is the phrase, in whatever mixture of capital and small letters; the phrase itself has none but small
      ones. */
  predicate InAnyCase(text: string, phrase: string) {
    |text| == |phrase|
    && forall i :: 0 <= i < |text| ==> text[i] == phrase[i] || ('a' <= phrase[i] <= 'z' && text[i] == phrase[i] - ' ')
  }

  predicate Says(message: string, phrase: string) {
    exists i :: 0 <= i <= |message| - |phrase| && InAnyCase(Slice(message, i, |phrase|), phrase)
  }

  function Slice(text: string, i: int, n: nat): (r: string)
    requires 0 <= i <= |text| - n
    ensures |r| == n
  {
    text[i..i + n]
  }

  predicate Small(phrase: string) {
    forall i :: 0 <= i < |phrase| ==> !('A' <= phrase[i] <= 'Z')
  }

  /** No chain accepts any of these however often it is asked. */
  predicate SaysSomethingFinal(m: string) {
    || Says(m, "invalid signature") || Says(m, "insufficient funds") || Says(m, "insufficient balance")
    || Says(m, "unauthorized") || Says(m, "not authorized") || Says(m, "invalid triple proof")
    || Says(m, "sender does not match") || Says(m, "invalid address") || Says(m, "invalid amount")
    || Says(m, "escrow not found") || Says(m, "already released") || Says(m, "already cancelled")
  }

  lemma LowerIsAnyCase(text: string, phrase: string)
    requires Small(phrase)
    ensures Lower(text) == phrase <==> InAnyCase(text, phrase)
  {
    if InAnyCase(text, phrase) {
      forall i | 0 <= i < |text| ensures Lower(text)[i] == phrase[i] {
      }
    }
    if Lower(text) == phrase {
      forall i | 0 <= i < |text|
        ensures text[i] == phrase[i] || ('a' <= phrase[i] <= 'z' && text[i] == phrase[i] - ' ') {
        assert Lower(text)[i] == phrase[i];
      }
    }
  }

  lemma LoweredTextIncludes(message: string, phrase: string)
    requires Small(phrase)
    ensures Includes(Lower(message), phrase) <==> Says(message, phrase)
  {
    forall i | 0 <= i <= |message| - |phrase|
      ensures StandsAt(Lower(message), phrase, i) <==> InAnyCase(Slice(message, i, |phrase|), phrase)
    {
      assert Lower(message)[i..i + |phrase|] == Lower(Slice(message, i, |phrase|));
      LowerIsAnyCase(Slice(message, i, |phrase|), phrase);
    }
  }

  /** A message is critical if and only if one of the twelve phrases stands somewhere in it, in any case. */
  lemma CriticalIff(message: string)
    ensures IsCriticalError(message) <==> SaysSomethingFinal(message)
  {
    forall i | 0 <= i < |CRITICAL_ERROR_PATTERNS|
      ensures Includes(Lower(message), CRITICAL_ERROR_PATTERNS[i]) <==> Says(message, CRITICAL_ERROR_PATTERNS[i]) {
      LoweredTextIncludes(message, CRITICAL_ERROR_PATTERNS[i]);
    }
    if SaysSomethingFinal(message) {
      FinalPhraseIsListed(message);
    }
  }

  lemma FinalPhraseIsListed(message: string)
    requires SaysSomethingFinal(message)
    ensures exists i :: 0 <= i < |CRITICAL_ERROR_PATTERNS| && Says(message, CRITICAL_ERROR_PATTERNS[i])
  {
    var all := CRITICAL_ERROR_PATTERNS;
    assert || Says(message, all[0]) || Says(message, all[1]) || Says(message, all[2]) || Says(message, all[3])
           || Says(message, all[4]) || Says(message, all[5]) || Says(message, all[6]) || Says(message, all[7])
           || Says(message, all[8]) || Says(message, all[9]) || Says(message, all[10]) || Says(message, all[11]);
  }

  /** Case never matters to the retry worker. */
  lemma CaseNeverMatters(a: string, b: string)
    requires Lower(a) == Lower(b)
    ensures IsCriticalError(a) <==> IsCriticalError(b)
  {
  }

  /** Text before or after a phrase never matters either. */
  lemma TextAroundNeverMatters(before: string, message: string, after: string)
    requires SaysSomethingFinal(message)
    ensures IsCriticalError(before + message + after)
  {
    CriticalIff(message);
    var i :| 0 <= i < |CRITICAL_ERROR_PATTERNS| && Includes(Lower(message), CRITICAL_ERROR_PATTERNS[i]);
    assert Lower(before + message + after) == Lower(before) + Lower(message) + Lower(after);
    IncludesAround(Lower(before), Lower(message), Lower(after), CRITICAL_ERROR_PATTERNS[i]);
  }

  lemma IncludesAround(before: string, text: string, after: string, part: string)
    requires Includes(text, part)
    ensures Includes(before + text + after, part)
  {
    var k :| 0 <= k <= |text| - |part| && StandsAt(text, part, k);
    var whole, at := before + text + after, |before| + k;
    assert whole[at..at + |part|] == text[k..k + |part|];
    assert StandsAt(whole, part, at);
  }

  // ----- messages that only ask for funds -----

  /** The anchor queue waits for funds if and only if the message has one of its two phrases letter by letter. */
  lemma LacksFundsIff(message: string)
    ensures LacksFunds(message)
            <==> || (exists i :: 0 <= i <= |message| - 18 && Slice(message, i, 18) == "Insufficient funds")
                 || (exists i :: 0 <= i <= |message| - 13 && Slice(message, i, 13) == "PENDING_FUNDS")
  {
    forall i | 0 <= i <= |message| - 18
      ensures Slice(message, i, 18) == "Insufficient funds" <==> StandsAt(message, "Insufficient funds", i) {
    }
    forall i | 0 <= i <= |message| - 13
      ensures Slice(message, i, 13) == "PENDING_FUNDS" <==> StandsAt(message, "PENDING_FUNDS", i) {
    }
  }

  /** The two tests read the same complaint differently: spelled with a small letter it does not return the event to
      wait for funds, and the retry worker gives its transaction up at the first failure. */
  lemma SmallLetterLosesTheWait(e: Event, p: Pending, now: int)
    ensures var m := "insufficient funds";
            && Served(e, Refused(m)) == e.(dltTxId := Some("RETRY_QUEUED")) && GoesToRetry(Refused(m))
            && Settled(map[], p, p, Failed(m), now).status == DLQ
    ensures var m := "Insufficient funds";
            Served(e, Refused(m)) == e.(dltTxId := None, status := PENDING_FUNDS) && !GoesToRetry(Refused(m))
  {
    SmallLetterIsFinal();
    LacksFundsIff("Insufficient funds");
    assert Slice("Insufficient funds", 0, 18) == "Insufficient funds";
  }

  lemma SmallLetterIsFinal()
    ensures !LacksFunds("insufficient funds") && IsCriticalError("insufficient funds")
  {
    var m := "insufficient funds";
    forall i | 0 <= i <= |m| - 18 ensures Slice(m, i, 18) != "Insufficient funds" {
      assert Slice(m, i, 18)[0] == m[0] == 'i';
    }
    forall i | 0 <= i <= |m| - 13 ensures Slice(m, i, 13) != "PENDING_FUNDS" {
      assert Slice(m, i, 13)[0] == m[i];
      assert m[i] != 'P';
    }
    LacksFundsIff(m);
    assert Slice(m, 0, 18) == m && InAnyCase(Slice(m, 0, 18), "insufficient funds");
    CriticalIff(m);
  }

  // ----- what an execution leaves of its row -----

  /** One minute, doubled with every failure, and an hour from the seventh on. */
  function Wait(failures: nat): nat
    requires failures >= 1
  {
    if failures == 1 then 60_000
    else if failures <= 6 then 2 * Wait(failures - 1)
    else 3_600_000
  }

  lemma {:induction false} DelayIsTheWait(n: nat)
    requires n >= 1
    ensures Delay(n) == Wait(n)
  {
    if n <= 6 {
      PowersToTheSixth();
      WaitsToTheSixth();
    } else {
      PowerAtLeast(n - 1);
    }
  }

  lemma PowersToTheSixth()
    ensures Pow2(0) == 1 && Pow2(1) == 2 && Pow2(2) == 4 && Pow2(3) == 8 && Pow2(4) == 16 && Pow2(5) == 32
    ensures Pow2(6) == 64
  {
    assert Pow2(1) == 2;
    assert Pow2(3) == 8;
    assert Pow2(5) == 32;
  }

  lemma WaitsToTheSixth()
    ensures Wait(1) == 60_000 && Wait(2) == 120_000 && Wait(3) == 240_000 && Wait(4) == 480_000
    ensures Wait(5) == 960_000 && Wait(6) == 1_920_000
  {
    assert Wait(2) == 120_000;
    assert Wait(4) == 480_000;
  }

  lemma {:induction false} PowerAtLeast(n: nat)
    requires n >= 6
    ensures Pow2(n) >= 64
  {
    if n == 6 {
      PowersToTheSixth();
    } else {
      PowerAtLeast(n - 1);
    }
  }

  /** How an execution of a row that was fetched as `row` ends, by its outcome alone. */
  lemma ExecutionDecides(events: map<string, Event>, p: Pending, row: Pending, outcome: Outcome, now: int)
    ensures var p', n := Settled(events, p, row, outcome, now), row.attemptCount + 1;
            var written := outcome.Succeeded? && (row.txType == ANCHOR && outcome.txId != "" ==> row.txRef in events);
            var final := outcome.Failed? && SaysSomethingFinal(outcome.message);
            && p'.attemptCount == n
            && (p'.status == SUCCESS <==> written)
            && (p'.status == DLQ <==> !written && (final || n >= row.maxAttempts))
            && (p'.status == FAILED <==> !written && !final && n < row.maxAttempts)
            && (p'.status == DLQ ==> p'.isDlq)
            && (p'.status == FAILED ==> p'.nextRetryAt == Some(now + Wait(n)))
            && p'.txRef == p.txRef && p'.txType == p.txType && p'.maxAttempts == p.maxAttempts && p'.chain == p.chain
  {
    DelayIsTheWait(row.attemptCount + 1);
    if outcome.Failed? {
      CriticalIff(outcome.message);
    }
  }

  /** From when on the retry worker may fetch the row again: at once when it is new, after the wait when its execution
      failed, never when it is closed. */
  lemma DueFrom(events: map<string, Event>, p: Pending, row: Pending, outcome: Outcome, now: int, at: int)
    requires !p.isDlq
    ensures var p' := Settled(events, p, row, outcome, now);
            Due(p', at) <==> p'.status == FAILED && at >= now + Wait(row.attemptCount + 1)
    ensures Due(NewPending(row.tenantId, row.txRef, row.txType, row.chain), at)
  {
    ExecutionDecides(events, p, row, outcome, now);
  }

  /** A row's own schedule: after its first four failures it waits one, two, four and eight minutes, the fifth is its
      last. */
  function Failures(p: Pending, at: seq<int>): Pending {
    if at == [] then p else var before := Failures(p, at[..|at| - 1]); Fail(Lock(before), before, false, at[|at| - 1])
  }

  lemma {:induction false} FiveFailuresAreTheEnd(p: Pending, tenant: string, txRef: string, txType: TxType,
                                                 chain: string, at: seq<int>)
    requires p == NewPending(tenant, txRef, txType, chain) && |at| <= 5
    ensures var q := Failures(p, at);
            && q.attemptCount == |at| && q.maxAttempts == 5
            && q.status == (if |at| == 0 then TxStatus.PENDING else if |at| == 5 then DLQ else FAILED)
            && (1 <= |at| <= 4 ==> q.nextRetryAt == Some(at[|at| - 1] + [60_000, 120_000, 240_000, 480_000][|at| - 1]))
  {
    if at == [] {
    } else {
      FiveFailuresAreTheEnd(p, tenant, txRef, txType, chain, at[..|at| - 1]);
      DelayIsTheWait(|at|);
      WaitsToTheSixth();
    }
  }

  // ----- over runs -----

  /** Whatever the other workers do: a row whose execution fails with one of these messages is DLQ right after it, stays
      so, and no worker ever gets to execute it again. */
  lemma FinalFailureIsForGood(s: State, steps: seq<Step>, m: nat, r: nat, message: string, id: nat)
    requires s.retriers == map[] && Possible(s, steps) && m < |steps| && steps[m] == Finish(r, Failed(message))
    requires Executes(After(s, steps[..m]).retriers, r, id) && SaysSomethingFinal(message)
    ensures var now := After(s, steps);
            && id < |now.tables.pending| && id < |After(s, steps[..m + 1]).tables.pending|
            && now.tables.pending[id].status == DLQ && now.tables.pending[id].isDlq
            && now.tables.pending[id] == After(s, steps[..m + 1]).tables.pending[id]
            && forall r' :: !Executes(now.retriers, r', id)
  {
    var upTo := steps[..m + 1];
    assert upTo[..m] == steps[..m];
    PrefixIsPossible(s, steps, m);
    PrefixIsPossible(s, steps, m + 1);
    RunRunsApart(s, steps[..m]);
    var before := After(s, steps[..m]);
    var tx := before.retriers[r].todo[0];
    assert tx in before.retriers[r].todo;
    assert After(s, upTo) == Apply(before, steps[m]);
    CriticalIff(message);
    assert After(s, upTo).tables.pending[id] == Fail(before.tables.pending[id], tx.row, true, before.clock);
    ClosedRowsStayAsTheyAre(s, steps, m + 1, id);
    RunRunsApart(s, steps);
  }

  lemma {:induction false} PrefixIsPossible(s: State, steps: seq<Step>, m: nat)
    requires Possible(s, steps) && m <= |steps|
    ensures Possible(s, steps[..m])
  {
    if m == |steps| {
      assert steps[..m] == steps;
    } else {
      var before := steps[..|steps| - 1];
      assert before[..m] == steps[..m];
      PrefixIsPossible(s, before, m);
    }
  }
}
