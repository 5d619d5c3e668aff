/** What each tap of an interleaved run is told, and what the tap log keeps of it. */
module DeviceVerdicts {
  import opened Common
  import opened DeviceGuard
  import opened DeviceGuardInterleaved

  /** What a tap deserves while this counter is stored: a counter that is not ahead is a replay whatever its code says,
      a bad code is refused, and only a counter ahead with a good code is valid. */
  predicate Deserves(stored: int, tap: Tap, verdict: Verdict) {
    && (verdict == REPLAY_BLOCKED <==> tap.ctr <= stored)
    && (verdict == CMAC_INVALID <==> tap.ctr > stored && !tap.cmacOk)
    && (verdict == VALID <==> tap.ctr > stored && tap.cmacOk)
  }

  lemma DecidingStepIsDeserved(s: State, id: nat)
    requires StagesOk(s) && Enabled(s, Access(id)) && Decides(s, Access(id))
    ensures var s' := Next(s, Access(id));
            && Deserves(s.last, s.tapOf[id], Decided(s'.stage[id]).value)
            && s'.last == if Decided(s'.stage[id]) == Some(VALID) then s.tapOf[id].ctr else s.last
  {
  }

  lemma {:induction false} RunKeepsStages(last: int, total: int, steps: seq<Step>)
    requires Legal(Start(last, total), steps)
    ensures StagesOk(Final(Start(last, total), steps))
  {
    if steps == [] {
    } else {
      RunKeepsStages(last, total, steps[..|steps| - 1]);
      StepKeepsStages(Final(Start(last, total), steps[..|steps| - 1]), steps[|steps| - 1]);
    }
  }

  /** Under any interleaving: every tap whose verdict is settled had one access at which it got the verdict it deserved
      by the counter stored just then, and that access advanced the counter to its own exactly when it was valid. */
  lemma {:induction false} VerdictsAreDeserved(last: int, total: int, steps: seq<Step>, id: nat) returns (k: nat)
    requires Legal(Start(last, total), steps)
    requires var s := Final(Start(last, total), steps); id in s.stage && Decided(s.stage[id]).Some?
    ensures k < |steps| && steps[k] == Access(id) && Legal(Start(last, total), steps[..k])
    ensures Legal(Start(last, total), steps[..k + 1])
    ensures var s, mid := Final(Start(last, total), steps), Final(Start(last, total), steps[..k]);
            && id in s.tapOf && Deserves(mid.last, s.tapOf[id], Decided(s.stage[id]).value)
            && Final(Start(last, total), steps[..k + 1]).last
               == if Decided(s.stage[id]) == Some(VALID) then s.tapOf[id].ctr else mid.last
  {
    var s0, n := Start(last, total), |steps| - 1;
    var before, a := Final(s0, steps[..n]), steps[n];
    DecisionsStand(before, a);
    if id in before.stage && Decided(before.stage[id]).Some? {
      k := VerdictsAreDeserved(last, total, steps[..n], id);
      assert steps[..n][..k] == steps[..k] && steps[..n][..k + 1] == steps[..k + 1];
    } else {
      k := n;
      assert steps[..n + 1] == steps;
      RunKeepsStages(last, total, steps[..n]);
      DecidingStepIsDeserved(before, id);
    }
  }

  // ----- the log -----

  function Finished(stage: map<nat, Stage>): set<nat> {
    set id | id in stage && stage[id].DONE?
  }

  /** A row of this tap: its counter and verdict, and the mark of a good code only if it has one. */
  predicate RowOf(row: TapLog, tap: Tap, verdict: Verdict) {
    row.counterValue == tap.ctr && row.verdict == verdict && (row.cmacValid ==> tap.cmacOk)
      && (verdict == VALID ==> row.cmacValid)
  }

  ghost predicate Logged(s: State) {
    && s.tapOf.Keys == s.stage.Keys
    && |s.logs| == |Finished(s.stage)|
    && (forall id <- s.stage :: s.stage[id].LOGGING? ==> RowOf(s.stage[id].row, s.tapOf[id], s.stage[id].row.verdict))
    && forall id <- s.stage :: s.stage[id].DONE? ==>
         exists row :: row in s.logs && RowOf(row, s.tapOf[id], s.stage[id].verdict)
  }

  lemma OneMoreFinished(stage: map<nat, Stage>, id: nat, g: Stage)
    requires id in stage ==> !stage[id].DONE?
    ensures |Finished(stage[id := g])| == |Finished(stage)| + if g.DONE? then 1 else 0
  {
    assert id !in Finished(stage);
    assert Finished(stage[id := g]) == Finished(stage) + if g.DONE? then {id} else {};
  }

  lemma StepCountsFinished(s: State, a: Step)
    requires Enabled(s, a) && |s.logs| == |Finished(s.stage)|
    ensures |Next(s, a).logs| == |Finished(Next(s, a).stage)|
  {
    var s' := Next(s, a);
    assert s'.stage == s.stage[a.id := s'.stage[a.id]];
    OneMoreFinished(s.stage, a.id, s'.stage[a.id]);
  }

  lemma StepKeepsLogged(s: State, a: Step)
    requires Enabled(s, a) && StagesOk(s) && Logged(s)
    ensures Logged(Next(s, a))
  {
    var s' := Next(s, a);
    StepCountsFinished(s, a);
    forall id | id in s'.stage && s'.stage[id].DONE?
      ensures exists row :: row in s'.logs && RowOf(row, s'.tapOf[id], s'.stage[id].verdict)
    {
      if id in s.stage && s.stage[id].DONE? {
        var row :| row in s.logs && RowOf(row, s.tapOf[id], s.stage[id].verdict);
        assert row in s'.logs;
      } else {
        assert RowOf(s'.logs[|s.logs|], s'.tapOf[id], s'.stage[id].verdict);
      }
    }
  }

  /** Under any interleaving the log has one row for each finished tap, with its counter and its verdict. */
  lemma {:induction false} FinishedTapsAreLogged(last: int, total: int, steps: seq<Step>)
    requires Legal(Start(last, total), steps)
    ensures Logged(Final(Start(last, total), steps))
  {
    if steps == [] {
    } else {
      FinishedTapsAreLogged(last, total, steps[..|steps| - 1]);
      RunKeepsStages(last, total, steps[..|steps| - 1]);
      StepKeepsLogged(Final(Start(last, total), steps[..|steps| - 1]), steps[|steps| - 1]);
    }
  }
}
