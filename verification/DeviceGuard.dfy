/** The anti-replay counter of an active NFC device: a stale read, the checks, then a conditional update.
    Taps interleave at the database accesses. */
module DeviceGuard {

  datatype Verdict = VALID | REPLAY_BLOCKED | CMAC_INVALID | DEVICE_INACTIVE | DEVICE_NOT_FOUND

  datatype TapLog = TapLog(counterValue: int, cmacValid: bool, verdict: Verdict)

  /** One tap as the request presents it; cmacOk is what the CMAC check says of it. */
  datatype Tap = Tap(ctr: int, cmacOk: bool)

  // ----- the simple specification: one atomic check-and-set -----

  function Judge(last: int, tap: Tap): Verdict {
    if tap.ctr <= last then REPLAY_BLOCKED
    else if !tap.cmacOk then CMAC_INVALID
    else VALID
  }

  function Advance(last: int, tap: Tap): int {
    if Judge(last, tap).VALID? then tap.ctr else last
  }

  /** Judging taps one after another with the atomic check-and-set. */
  function Replay(last: int, taps: seq<Tap>): int {
    if taps == [] then last else Advance(Replay(last, taps[..|taps| - 1]), taps[|taps| - 1])
  }

  function Accepted(last: int, taps: seq<Tap>): seq<int> {
    if taps == [] then []
    else
      var before := taps[..|taps| - 1];
      Accepted(last, before) + if Judge(Replay(last, before), taps[|taps| - 1]).VALID? then [taps[|taps| - 1].ctr]
        else []
  }

  /** The log rows of taps that reach their conditional update one after another. */
  function UpdateRows(last: int, taps: seq<Tap>): seq<TapLog> {
    if taps == [] then []
    else
      var before, tap := taps[..|taps| - 1], taps[|taps| - 1];
      UpdateRows(last, before)
      + [TapLog(tap.ctr, true, if Replay(last, before) < tap.ctr then VALID else REPLAY_BLOCKED)]
  }

  lemma ReplayAppend(last: int, taps: seq<Tap>, tap: Tap)
    ensures Replay(last, taps + [tap]) == Advance(Replay(last, taps), tap)
    ensures Accepted(last, taps + [tap]) == Accepted(last, taps) + if Judge(Replay(last, taps), tap).VALID? then
            [tap.ctr] else []
    ensures UpdateRows(last, taps + [tap])
            == UpdateRows(last, taps) + [TapLog(tap.ctr, true, if Replay(last, taps) < tap.ctr then VALID
              else REPLAY_BLOCKED)]
  {
    assert (taps + [tap])[..|taps|] == taps;
  }

  /** One after another, the accepted counters strictly increase from the initial one, and the last accepted is the one
      stored. */
  lemma {:induction false} AcceptedIncrease(last: int, taps: seq<Tap>)
    ensures forall i :: 0 <= i < |Accepted(last, taps)| ==> last < Accepted(last, taps)[i] <= Replay(last, taps)
    ensures forall i, j :: 0 <= i < j < |Accepted(last, taps)| ==> Accepted(last, taps)[i] < Accepted(last, taps)[j]
    ensures Replay(last, taps) == if Accepted(last, taps) == [] then last
            else Accepted(last, taps)[|Accepted(last, taps)| - 1]
  {
    if taps == [] {
    } else {
      var before, tap := taps[..|taps| - 1], taps[|taps| - 1];
      AcceptedIncrease(last, before);
      var earlier := Accepted(last, before);
      if !Judge(Replay(last, before), tap).VALID? {
        assert Accepted(last, taps) == earlier;
      } else {
        assert Accepted(last, taps) == earlier + [tap.ctr];
      }
    }
  }

  // ----- the facet -----

  class Device {
    var tenantId: string
    var isActive: bool
    var lastCounter: int
    var totalTaps: int
    var logs: seq<TapLog>

    constructor (tenantId: string, initialCounter: int)
      ensures this.tenantId == tenantId && isActive
      ensures lastCounter == initialCounter && totalTaps == 0 && logs == []
    {
      this.tenantId := tenantId;
      isActive := true;
      lastCounter := initialCounter;
      totalTaps := 0;
      logs := [];
    }

    /** The transaction: `updateMany` on the row only where the stored counter is behind, then the VALID log row. */
    method ConditionalUpdate(tap: Tap) returns (count: nat)
      modifies this`lastCounter, this`totalTaps, this`logs
      ensures count == (if old(lastCounter) < tap.ctr then 1 else 0)
      ensures lastCounter == (if count == 1 then tap.ctr else old(lastCounter))
      ensures totalTaps == old(totalTaps) + count
      ensures logs == old(logs) + if count == 1 then [TapLog(tap.ctr, true, VALID)] else []
    {
      count := 0;
      if lastCounter < tap.ctr {
        lastCounter, totalTaps := tap.ctr, totalTaps + 1;
        logs := logs + [TapLog(tap.ctr, true, VALID)];
        count := 1;
      }
    }

    method LogTap(tap: Tap, cmacValid: bool, verdict: Verdict)
      modifies this`logs
      ensures logs == old(logs) + [TapLog(tap.ctr, cmacValid, verdict)]
    {
      logs := logs + [TapLog(tap.ctr, cmacValid, verdict)];
    }

    /** The transaction and, when it found the counter overtaken, the refusal's log row. */
    method Record(tap: Tap) returns (verdict: Verdict)
      modifies this`lastCounter, this`totalTaps, this`logs
      ensures verdict == if old(lastCounter) < tap.ctr then VALID else REPLAY_BLOCKED
      ensures lastCounter == if verdict.VALID? then tap.ctr else old(lastCounter)
      ensures totalTaps == old(totalTaps) + if verdict.VALID? then 1 else 0
      ensures logs == old(logs) + [TapLog(tap.ctr, true, verdict)]
    {
      var count := ConditionalUpdate(tap);
      if count == 0 {
        LogTap(tap, true, REPLAY_BLOCKED);
        return REPLAY_BLOCKED;
      }
      return VALID;
    }

    /** Taps of other requests that passed their checks earlier, recorded one after another. */
    method RecordOthers(between: seq<Tap>)
      requires forall i :: 0 <= i < |between| ==> between[i].cmacOk
      modifies this`lastCounter, this`totalTaps, this`logs
      ensures lastCounter == Replay(old(lastCounter), between)
      ensures totalTaps == old(totalTaps) + |Accepted(old(lastCounter), between)|
      ensures logs == old(logs) + UpdateRows(old(lastCounter), between)
    {
      for i := 0 to |between|
        invariant lastCounter == Replay(old(lastCounter), between[..i])
        invariant totalTaps == old(totalTaps) + |Accepted(old(lastCounter), between[..i])|
        invariant logs == old(logs) + UpdateRows(old(lastCounter), between[..i])
      {
        assert between[..i + 1] == between[..i] + [between[i]];
        ReplayAppend(old(lastCounter), between[..i], between[i]);
        var _ := Record(between[i]);
      }
      assert between[..|between|] == between;
    }
  }

  /** `validateAndRecordTap`. The taps in between reach their own conditional update, and log it, after this tap has
      read the device and before it updates it; with or without them the verdict is the atomic one, for the counter
      stored at that instant. */
  method ValidateAndRecordTap(device: Device?, tenantId: string, tap: Tap, between: seq<Tap>) returns (verdict: Verdict)
    requires forall i :: 0 <= i < |between| ==> between[i].cmacOk
    modifies if device == null then {} else {device}
    ensures device == null ==> verdict == DEVICE_NOT_FOUND
    ensures device != null ==>
              if old(device.tenantId) != tenantId then verdict == DEVICE_NOT_FOUND && unchanged(device)
              else if !old(device.isActive) then verdict == DEVICE_INACTIVE && unchanged(device)
              else
                var before := old(device.lastCounter);
                var others := if Judge(before, tap).VALID? then between else [];
                && verdict == Judge(Replay(before, others), tap)
                && device.lastCounter == Replay(before, others + [tap])
                && device.totalTaps == old(device.totalTaps) + |Accepted(before, others + [tap])|
                && device.logs == old(device.logs) + UpdateRows(before, others)
                                  + [TapLog(tap.ctr, Judge(before, tap).VALID?, verdict)]
  {
    if device == null {
      return DEVICE_NOT_FOUND;
    }
    if device.tenantId != tenantId {
      return DEVICE_NOT_FOUND;
    }
    if !device.isActive {
      return DEVICE_INACTIVE;
    }
    ghost var others := if Judge(device.lastCounter, tap).VALID? then between else [];
    ReplayAppend(device.lastCounter, others, tap);
    if tap.ctr <= device.lastCounter {
      device.LogTap(tap, false, REPLAY_BLOCKED);
      return REPLAY_BLOCKED;
    }
    if !tap.cmacOk {
      device.LogTap(tap, false, CMAC_INVALID);
      return CMAC_INVALID;
    }
    device.RecordOthers(between);
    verdict := device.Record(tap);
  }
}

/** Any number of taps on one active device, interleaved at their database accesses. */
module DeviceGuardInterleaved {
  import opened Common
  import opened DeviceGuard

  /** Where a tap stands: about to read the device, about to update it, about to log a refusal, finished. */
  datatype Stage =
    | READING
    | UPDATING
    | LOGGING(row: TapLog)
    | DONE(verdict: Verdict)

  datatype State = State(last: int, total: int, logs: seq<TapLog>, tapOf: map<nat, Tap>, stage: map<nat, Stage>)

  /** A tap arrives, or takes its next database access. */
  datatype Step = Arrive(id: nat, tap: Tap) | Access(id: nat)

  predicate Enabled(s: State, a: Step) {
    s.tapOf.Keys == s.stage.Keys &&
    match a
    case Arrive(id, _) => id !in s.stage
    case Access(id) => id in s.stage && !s.stage[id].DONE?
  }

  function Next(s: State, a: Step): (s': State)
    requires Enabled(s, a)
    ensures s'.tapOf.Keys == s'.stage.Keys
  {
    match a
    case Arrive(id, tap) => s.(tapOf := s.tapOf[id := tap], stage := s.stage[id := READING])
    case Access(id) =>
      var tap := s.tapOf[id];
      match s.stage[id]
      case READING =>
        if tap.ctr <= s.last then s.(stage := s.stage[id := LOGGING(TapLog(tap.ctr, false, REPLAY_BLOCKED))])
        else if !tap.cmacOk then s.(stage := s.stage[id := LOGGING(TapLog(tap.ctr, false, CMAC_INVALID))])
        else s.(stage := s.stage[id := UPDATING])
      case UPDATING =>
        if s.last < tap.ctr then
          s.(last := tap.ctr, total := s.total + 1, logs := s.logs + [TapLog(tap.ctr, true, VALID)],
            stage := s.stage[id := DONE(VALID)])
        else s.(stage := s.stage[id := LOGGING(TapLog(tap.ctr, true, REPLAY_BLOCKED))])
      case LOGGING(row) => s.(logs := s.logs + [row], stage := s.stage[id := DONE(row.verdict)])
      case DONE(_) => s
  }

  function Start(last: int, total: int): State {
    State(last, total, [], map[], map[])
  }

  predicate Legal(s: State, steps: seq<Step>)
    decreases |steps|, 0
  {
    steps == [] ||
    (Legal(s, steps[..|steps| - 1]) && Enabled(Final(s, steps[..|steps| - 1]), steps[|steps| - 1]))
  }

  function Final(s: State, steps: seq<Step>): State
    requires Legal(s, steps)
    decreases |steps|, 1
  {
    if steps == [] then s else Next(Final(s, steps[..|steps| - 1]), steps[|steps| - 1])
  }

  // ----- linearization -----

  /** The verdict a tap is already bound to, once its deciding access has happened. */
  function Decided(g: Stage): Option<Verdict> {
    match g
    case LOGGING(row) => Some(row.verdict)
    case DONE(v) => Some(v)
    case _ => None
  }

  /** The taps in the order of their deciding accesses. */
  function Order(s: State, steps: seq<Step>): seq<nat>
    requires Legal(s, steps)
    decreases |steps|
  {
    if steps == [] then []
    else
      var before, a := Final(s, steps[..|steps| - 1]), steps[|steps| - 1];
      Order(s, steps[..|steps| - 1])
      + if Decides(before, a) then [a.id] else []
  }

  function Taps(tapOf: map<nat, Tap>, order: seq<nat>): (r: seq<Tap>)
    requires forall i :: 0 <= i < |order| ==> order[i] in tapOf
    ensures |r| == |order| && forall i :: 0 <= i < |order| ==> r[i] == tapOf[order[i]]
  {
    seq(|order|, i requires 0 <= i < |order| => tapOf[order[i]])
  }

  function ValidCounters(logs: seq<TapLog>): seq<int> {
    if logs == [] then []
    else ValidCounters(logs[..|logs| - 1]) + if logs[|logs| - 1].verdict.VALID? then [logs[|logs| - 1].counterValue]
      else []
  }

  /** The order lists each decided tap once, and nothing else. */
  ghost predicate Lists(s: State, order: seq<nat>) {
    && s.tapOf.Keys == s.stage.Keys
    && (forall i, j :: 0 <= i < j < |order| ==> order[i] != order[j])
    && (forall id :: id in order <==> id in s.stage && Decided(s.stage[id]).Some?)
  }

  /** Judging the taps one after another explains the stored counter, the VALID rows and the tap count. */
  ghost predicate Counts(s0: State, s: State, taps: seq<Tap>) {
    && s.last == Replay(s0.last, taps)
    && ValidCounters(s.logs) == Accepted(s0.last, taps)
    && s.total == s0.total + |Accepted(s0.last, taps)|
  }

  ghost predicate Verdicts(s0: State, s: State, order: seq<nat>, taps: seq<Tap>)
    requires |order| == |taps|
  {
    forall i :: 0 <= i < |order| ==>
      order[i] in s.stage && Decided(s.stage[order[i]]) == Some(Judge(Replay(s0.last, taps[..i]), taps[i]))
  }

  ghost predicate StagesOk(s: State) {
    && s.tapOf.Keys == s.stage.Keys
    && (forall id <- s.stage :: s.stage[id].UPDATING? ==> s.tapOf[id].cmacOk)
    && (forall id <- s.stage :: s.stage[id].LOGGING? ==> !s.stage[id].row.verdict.VALID?)
  }

  ghost predicate Explains(s0: State, s: State, order: seq<nat>) {
    && StagesOk(s)
    && Lists(s, order)
    && Counts(s0, s, Taps(s.tapOf, order))
    && Verdicts(s0, s, order, Taps(s.tapOf, order))
  }

  lemma TapsExtend(tapOf: map<nat, Tap>, tapOf': map<nat, Tap>, order: seq<nat>, id: nat)
    requires forall i :: 0 <= i < |order| ==> order[i] in tapOf
    requires forall k <- tapOf :: k in tapOf' && tapOf'[k] == tapOf[k]
    requires id in tapOf'
    ensures Taps(tapOf', order) == Taps(tapOf, order)
    ensures Taps(tapOf', order + [id]) == Taps(tapOf, order) + [tapOf'[id]]
  {
  }

  predicate Decides(s: State, a: Step)
    requires Enabled(s, a)
  {
    a.Access? && Decided(s.stage[a.id]).None? && Decided(Next(s, a).stage[a.id]).Some?
  }

  lemma DecisionsStand(s: State, a: Step)
    requires Enabled(s, a)
    ensures var s' := Next(s, a);
            && (forall id <- s.tapOf :: id in s'.tapOf && s'.tapOf[id] == s.tapOf[id])
            && (forall id <- s.stage :: id in s'.stage && (Decided(s.stage[id]).Some? ==>
                Decided(s'.stage[id]) == Decided(s.stage[id])))
            && (forall id <- s'.stage :: Decided(s'.stage[id]).Some? ==>
                  (Decides(s, a) && id == a.id) || (id in s.stage && Decided(s.stage[id]).Some?))
  {
  }

  lemma StepKeepsStages(s: State, a: Step)
    requires StagesOk(s) && Enabled(s, a)
    ensures StagesOk(Next(s, a))
  {
  }

  lemma QuietEffect(s: State, a: Step)
    requires StagesOk(s) && Enabled(s, a) && !Decides(s, a)
    ensures Next(s, a).last == s.last && Next(s, a).total == s.total
            && ValidCounters(Next(s, a).logs) == ValidCounters(s.logs)
  {
    var s' := Next(s, a);
    if s'.logs != s.logs {
      assert s'.logs[..|s.logs|] == s.logs;
    }
  }

  /** A step that decides a tap judges it exactly as the atomic check-and-set would at that instant. */
  lemma DecisionIsAtomic(s: State, id: nat)
    requires StagesOk(s) && Enabled(s, Access(id)) && Decides(s, Access(id))
    ensures var s', v := Next(s, Access(id)), Judge(s.last, s.tapOf[id]);
            && Decided(s'.stage[id]) == Some(v)
            && s'.last == Advance(s.last, s.tapOf[id])
            && s'.total == s.total + (if v.VALID? then 1 else 0)
            && ValidCounters(s'.logs) == ValidCounters(s.logs) + if v.VALID? then [s.tapOf[id].ctr] else []
  {
    var s' := Next(s, Access(id));
    if s'.logs != s.logs {
      assert s'.logs[..|s.logs|] == s.logs;
    } else {
      assert ValidCounters(s.logs) + [] == ValidCounters(s.logs);
    }
  }

  lemma {:induction false} VerdictsExtend(s0: State, s: State, s': State, order: seq<nat>, taps: seq<Tap>, id: nat,
                                          tap: Tap)
    requires |taps| == |order| && Verdicts(s0, s, order, taps)
    requires forall k <- s.stage :: k in s'.stage && (Decided(s.stage[k]).Some? ==>
             Decided(s'.stage[k]) == Decided(s.stage[k]))
    requires id in s'.stage && Decided(s'.stage[id]) == Some(Judge(Replay(s0.last, taps), tap))
    ensures Verdicts(s0, s', order + [id], taps + [tap])
  {
    forall i | 0 <= i < |order + [id]|
      ensures (order + [id])[i] in s'.stage
      ensures Decided(s'.stage[(order + [id])[i]]) == Some(Judge(Replay(s0.last, (taps + [tap])[..i]),
              (taps + [tap])[i]))
    {
      if i < |order| {
        assert (taps + [tap])[..i] == taps[..i];
        assert order[i] in s.stage;
      } else {
        assert (taps + [tap])[..i] == taps;
      }
    }
  }

  lemma QuietStepExplained(s0: State, s: State, order: seq<nat>, a: Step)
    requires Explains(s0, s, order) && Enabled(s, a) && !Decides(s, a)
    ensures Explains(s0, Next(s, a), order)
  {
    StepKeepsStages(s, a);
    DecisionsStand(s, a);
    QuietEffect(s, a);
    assert forall i :: 0 <= i < |order| ==> order[i] in order;
    TapsExtend(s.tapOf, Next(s, a).tapOf, order, a.id);
  }

  lemma {:induction false} DecisionExplained(s0: State, s: State, order: seq<nat>, id: nat)
    requires Explains(s0, s, order) && Enabled(s, Access(id)) && Decides(s, Access(id))
    ensures Explains(s0, Next(s, Access(id)), order + [id])
  {
    var s' := Next(s, Access(id));
    var taps, tap := Taps(s.tapOf, order), s.tapOf[id];
    StepKeepsStages(s, Access(id));
    DecisionsStand(s, Access(id));
    DecisionIsAtomic(s, id);
    TapsExtend(s.tapOf, s'.tapOf, order, id);
    ReplayAppend(s0.last, taps, tap);
    assert Counts(s0, s', taps + [tap]);
    VerdictsExtend(s0, s, s', order, taps, id, tap);
    assert Lists(s', order + [id]);
  }

  lemma {:induction false} OrderExplains(last: int, total: int, steps: seq<Step>)
    requires Legal(Start(last, total), steps)
    ensures Explains(Start(last, total), Final(Start(last, total), steps), Order(Start(last, total), steps))
    decreases |steps|
  {
    var s0 := Start(last, total);
    if steps == [] {
    } else {
      var n := |steps| - 1;
      OrderExplains(last, total, steps[..n]);
      var before, a := Final(s0, steps[..n]), steps[n];
      if Decides(before, a) {
        DecisionExplained(s0, before, Order(s0, steps[..n]), a.id);
      } else {
        QuietStepExplained(s0, before, Order(s0, steps[..n]), a);
        assert Order(s0, steps[..n]) + [] == Order(s0, steps[..n]);
      }
    }
  }

  lemma {:induction false} OrderGrows(s: State, steps: seq<Step>, k: nat)
    requires Legal(s, steps) && k <= |steps|
    ensures Legal(s, steps[..k])
    ensures Order(s, steps[..k]) <= Order(s, steps)
    decreases |steps|
  {
    if k == |steps| {
      assert steps[..k] == steps;
    } else {
      var n := |steps| - 1;
      OrderGrows(s, steps[..n], k);
      assert steps[..n][..k] == steps[..k];
    }
  }

  /** Judged one after another by the atomic check-and-set, the taps of this order get the verdicts they got, and lead
      to the stored counter and the tap count reached. */
  ghost predicate Linearizes(last: int, total: int, s: State, order: seq<nat>) {
    && (forall i :: 0 <= i < |order| ==> order[i] in s.tapOf && order[i] in s.stage)
    && var taps := Taps(s.tapOf, order);
       && s.last == Replay(last, taps)
       && s.total == total + |Accepted(last, taps)|
       && forall i :: 0 <= i < |order| ==> s.stage[order[i]].DONE? ==>
            s.stage[order[i]].verdict == Judge(Replay(last, taps[..i]), taps[i])
  }

  /** Linearizability, under any interleaving: the order of the deciding accesses lists every finished tap, none twice,
      and linearizes the run. */
  lemma {:induction false} TapsAreLinearizable(last: int, total: int, steps: seq<Step>)
    requires Legal(Start(last, total), steps)
    ensures var s := Final(Start(last, total), steps);
            var order := Order(Start(last, total), steps);
            && (forall id <- s.stage :: s.stage[id].DONE? ==> id in order)
            && (forall i, j :: 0 <= i < j < |order| ==> order[i] != order[j])
            && Linearizes(last, total, s, order)
  {
    OrderExplains(last, total, steps);
  }

  lemma EarlierInPrefix(early: seq<nat>, order: seq<nat>, i: nat, j: nat)
    requires early <= order && i < |order| && j < |order|
    requires forall m, n :: 0 <= m < n < |order| ==> order[m] != order[n]
    requires order[i] in early && order[j] !in early
    ensures i < j
  {
    var i' :| 0 <= i' < |early| && early[i'] == order[i];
    assert order[i'] == order[i];
    assert forall k :: 0 <= k < |early| ==> order[k] == early[k] && order[k] in early;
  }

  lemma {:induction false} OrderLists(last: int, total: int, steps: seq<Step>)
    requires Legal(Start(last, total), steps)
    ensures Lists(Final(Start(last, total), steps), Order(Start(last, total), steps))
  {
    OrderExplains(last, total, steps);
  }

  /** The linearization respects real time: a tap finished before another arrives is judged before it. */
  lemma LinearizationRespectsRealTime(last: int, total: int, steps: seq<Step>, k: nat, i: nat, j: nat)
    requires Legal(Start(last, total), steps) && k <= |steps| && Legal(Start(last, total), steps[..k])
    requires i < |Order(Start(last, total), steps)| && j < |Order(Start(last, total), steps)|
    requires var mid := Final(Start(last, total), steps[..k]);
             var order := Order(Start(last, total), steps);
             order[i] in mid.stage && mid.stage[order[i]].DONE? && order[j] !in mid.stage
    ensures i < j
  {
    var s0 := Start(last, total);
    OrderGrows(s0, steps, k);
    OrderLists(last, total, steps[..k]);
    OrderLists(last, total, steps);
    EarlierInPrefix(Order(s0, steps[..k]), Order(s0, steps), i, j);
  }

  /** Anti-replay, under any interleaving: the VALID log counters strictly increase from the initial counter, so none is
      accepted twice; the stored counter is the last one accepted; the tap count grows by the number of VALID rows. */
  lemma ValidCountersNeverRepeat(last: int, total: int, steps: seq<Step>)
    requires Legal(Start(last, total), steps)
    ensures var s := Final(Start(last, total), steps);
            var valid := ValidCounters(s.logs);
            && (forall i :: 0 <= i < |valid| ==> last < valid[i])
            && (forall i, j :: 0 <= i < j < |valid| ==> valid[i] < valid[j])
            && s.last == (if valid == [] then last else valid[|valid| - 1])
            && s.total == total + |valid|
  {
    OrderExplains(last, total, steps);
    var s := Final(Start(last, total), steps);
    AcceptedIncrease(last, Taps(s.tapOf, Order(Start(last, total), steps)));
  }
}
