/** Why a confirm can be stopped between any two of its writes and run again from the top. */
module QTagRecovery {
  import opened Common
  import opened LedgerTable
  import opened QTagOrders
  import opened QTagProofs

  /** The n-th write would change nothing and succeed. */
  predicate Done(s: State, c: Call, n: nat) {
    c.Confirm? && c.sessionId in s.sessions && Write(s, c, n) == Result(s, None)
  }

  /** What no write of a confirm changes in its session. */
  predicate SameSession(a: Session, b: Session) {
    a.(status := IN_PROGRESS) == b.(status := IN_PROGRESS)
  }

  lemma WriteKeepsSession(s: State, c: Call, n: nat)
    requires c.Confirm? && c.sessionId in s.sessions
    ensures var s' := Write(s, c, n).state;
            c.sessionId in s'.sessions && SameSession(s.sessions[c.sessionId], s'.sessions[c.sessionId])
  {
  }

  lemma ConsumeIsDone(s: State, tenant: string, orderId: string, user: Option<string>)
    requires ConsumeReservation(s, tenant, orderId, user).error.None?
    ensures var s' := ConsumeReservation(s, tenant, orderId, user).state;
            s'.orders == s.orders && ConsumeReservation(s', tenant, orderId, user) == Result(s', None)
  {
    var e := Entry(tenant, OrUndefined(user), CONSUMED, 1, 0, -1, Some(ConsumeKey(orderId)), Some(orderId));
    KeyAdded(s.rows, e, tenant, ConsumeKey(orderId));
  }

  lemma LinkIsDone(s: State, c: Call, session: Session, orderId: string)
    requires c.Confirm? && LinkAsset(s, c, session, orderId).error.None?
    ensures var s' := LinkAsset(s, c, session, orderId).state; LinkAsset(s', c, session, orderId) == Result(s', None)
  {
    var s' := LinkAsset(s, c, session, orderId).state;
    var a := s.assets[session.assetId].(deviceId := Some(Lower(c.ntagUID)));
    assert s' == s.(assets := s.assets[session.assetId := a]);
    assert s'.assets[session.assetId := a] == s'.assets;
  }

  /** Each write is idempotent. */
  lemma WriteIsDone(s: State, c: Call, n: nat)
    requires c.Confirm? && c.sessionId in s.sessions && Write(s, c, n).error.None?
    ensures Done(Write(s, c, n).state, c, n)
  {
    var session := s.sessions[c.sessionId];
    var s' := Write(s, c, n).state;
    WriteKeepsSession(s, c, n);
    if n == 1 {
      assert s'.sessions[c.sessionId := s'.sessions[c.sessionId]] == s'.sessions;
    } else if !c.success {
      if n == 2 && session.orderId.Some? {
        assert s'.orders[session.orderId.value := s'.orders[session.orderId.value]] == s'.orders;
      }
    } else if n == 2 {
      assert s'.devices[Lower(c.ntagUID) := s'.devices[Lower(c.ntagUID)]] == s'.devices;
    } else if session.orderId.Some? {
      var id := session.orderId.value;
      if n == 3 {
        LinkIsDone(s, c, session, id);
      } else if n == 4 {
        ConsumeIsDone(s, c.tenant, id, s.orders[id].userId);
      } else {
        assert s'.orders[id := s'.orders[id]] == s'.orders;
      }
    }
  }

  /** A later write leaves an earlier one done. */
  lemma LaterWriteKeepsDone(s: State, c: Call, n: nat, later: nat)
    requires Done(s, c, n) && 1 <= n < later <= 5 && Write(s, c, later).error.None?
    ensures Done(Write(s, c, later).state, c, n)
  {
  }

  lemma {:induction false} PrefixSucceeds(s: State, c: Call, k: nat, n: nat)
    requires c.Confirm? && k <= n && UpTo(s, c, n).error.None?
    ensures UpTo(s, c, k).error.None?
  {
    if k < n {
      PrefixSucceeds(s, c, k, n - 1);
    }
  }

  /** After k writes, each of the first k is done. */
  lemma {:induction false} EarlierWritesAreDone(s: State, c: Call, n: nat, k: nat)
    requires c.Confirm? && 1 <= n <= k <= 5 && UpTo(s, c, k).error.None?
    ensures Done(UpTo(s, c, k).state, c, n)
  {
    if n == k {
      WriteIsDone(UpTo(s, c, k - 1).state, c, k);
    } else {
      EarlierWritesAreDone(s, c, n, k - 1);
      LaterWriteKeepsDone(UpTo(s, c, k - 1).state, c, n, k);
    }
  }

  /** The checks at the top read nothing a confirm writes. */
  lemma {:induction false} StillPassesChecks(s: State, c: Call, k: nat)
    requires c.Confirm? && UpTo(s, c, k).error.None?
    ensures ConfirmRefusal(UpTo(s, c, k).state, c).None? && c.sessionId in s.sessions
    ensures SameSession(s.sessions[c.sessionId], UpTo(s, c, k).state.sessions[c.sessionId])
  {
    if k == 0 {
    } else {
      StillPassesChecks(s, c, k - 1);
      WriteKeepsSession(UpTo(s, c, k - 1).state, c, k);
    }
  }

  function Max(a: nat, b: nat): nat {
    if a < b then b else a
  }

  /** Running the first n writes again after k were done leaves the larger of the two prefixes. */
  lemma {:induction false} RedoneWrites(s: State, c: Call, k: nat, n: nat)
    requires c.Confirm? && k <= 5 && n <= 5 && UpTo(s, c, Max(k, n)).error.None?
    ensures UpTo(s, c, k).error.None? && UpTo(UpTo(s, c, k).state, c, n) == Result(UpTo(s, c, Max(k, n)).state, None)
  {
    PrefixSucceeds(s, c, k, Max(k, n));
    var pk := UpTo(s, c, k).state;
    if n == 0 {
      StillPassesChecks(s, c, k);
    } else {
      PrefixSucceeds(s, c, Max(k, n - 1), Max(k, n));
      RedoneWrites(s, c, k, n - 1);
      NextWrite(pk, c, n, UpTo(s, c, Max(k, n - 1)).state);
      if n <= k {
        EarlierWritesAreDone(s, c, n, k);
      } else {
        NextWrite(s, c, n, UpTo(s, c, n - 1).state);
      }
    }
  }

  lemma NextWrite(s: State, c: Call, n: nat, mid: State)
    requires c.Confirm? && n >= 1 && UpTo(s, c, n - 1) == Result(mid, None)
    ensures c.sessionId in mid.sessions && UpTo(s, c, n) == Write(mid, c, n)
  {
  }

  /** A confirm attempted again and again, each attempt stopped after so many of its writes. */
  function Attempts(s: State, c: Call, stops: seq<nat>): State
    requires c.Confirm?
  {
    if stops == [] then s else UpTo(Attempts(s, c, stops[..|stops| - 1]), c, stops[|stops| - 1]).state
  }

  function Furthest(stops: seq<nat>): nat {
    if stops == [] then 0 else Max(Furthest(stops[..|stops| - 1]), stops[|stops| - 1])
  }

  lemma {:induction false} AttemptsReachTheFurthest(s: State, c: Call, stops: seq<nat>)
    requires c.Confirm? && DoConfirm(s, c).error.None? && forall i :: 0 <= i < |stops| ==> stops[i] <= 5
    ensures Furthest(stops) <= 5 && Attempts(s, c, stops) == UpTo(s, c, Furthest(stops)).state
  {
    if stops == [] {
    } else {
      var before, k := stops[..|stops| - 1], stops[|stops| - 1];
      AttemptsReachTheFurthest(s, c, before);
      PrefixSucceeds(s, c, Max(Furthest(before), k), 5);
      RedoneWrites(s, c, Furthest(before), k);
    }
  }

  /** Crash recovery: however often a confirm is stopped, after whichever of its writes, running it to the end leaves
      exactly what one uninterrupted run would have left in every table. */
  lemma ConfirmSurvivesCrashes(s: State, c: Call, stops: seq<nat>)
    requires c.Confirm? && DoConfirm(s, c).error.None? && forall i :: 0 <= i < |stops| ==> stops[i] <= 5
    ensures DoConfirm(Attempts(s, c, stops), c) == DoConfirm(s, c)
  {
    AttemptsReachTheFurthest(s, c, stops);
    PrefixSucceeds(s, c, Furthest(stops), 5);
    RedoneWrites(s, c, Furthest(stops), 5);
  }

  /** From a state in step with the ledger, the crashed and repeated confirm of an order ends with one CONSUMED row. */
  lemma CrashedConfirmConsumesOnce(s: State, c: Call, id: string, stops: seq<nat>)
    requires Inv(s) && c.Confirm? && c.success && DoConfirm(s, c).error.None? && forall i :: 0 <= i < |stops| ==>
             stops[i] <= 5
    requires c.sessionId in s.sessions && OpenSessionOf(s.sessions[c.sessionId], id)
    ensures var end := DoConfirm(Attempts(s, c, stops), c).state;
            && RowCount(end.rows, id, CONSUMED) == 1
            && |end.rows| == |s.rows| + 1
            && id in end.orders && end.orders[id].status == ACTIVATED
  {
    ConfirmSurvivesCrashes(s, c, stops);
    StillPassesChecks(s, c, 5);
    PrefixSucceeds(s, c, 0, 5);
    SuccessfulConfirmOutcome(s, c, id);
    SuccessfulConfirmKeepsInv(s, c);
    var end := DoConfirm(s, c).state;
    assert OrderMatches(end.tenants, end.rows, id, end.orders[id]);
  }

  /** The asset link can be made: the order and the asset are there and no other asset has the device. */
  predicate Linkable(s: State, c: Call, session: Session, id: string)
    requires c.Confirm?
  {
    && id in s.orders && s.orders[id].tenantId == c.tenant && s.orders[id].assetId == session.assetId
    && session.assetId in s.assets
    && forall a <- s.assets :: a != session.assetId ==> s.assets[a].deviceId != Some(Lower(c.ntagUID))
  }

  lemma LinkableThroughout(s: State, c: Call, session: Session, id: string)
    requires c.Confirm? && LinkAsset(s, c, session, id).error.None?
    ensures Linkable(s, c, session, id) && Linkable(LinkAsset(s, c, session, id).state, c, session, id)
  {
  }

  lemma FirstWrites(s: State, c: Call, id: string)
    requires c.Confirm? && c.success && DoConfirm(s, c).error.None? && c.sessionId in s.sessions
    requires s.sessions[c.sessionId].orderId == Some(id)
    ensures var upserted := UpsertDevice(CloseSession(s, c).state, c).state;
            var linked := LinkAsset(upserted, c, s.sessions[c.sessionId], id);
            && UpTo(s, c, 1) == CloseSession(s, c) && UpTo(s, c, 2) == Result(upserted, None)
            && UpTo(s, c, 3) == linked && linked.error.None?
  {
    PrefixSucceeds(s, c, 0, 5);
    PrefixSucceeds(s, c, 3, 5);
    assert UpTo(s, c, 1) == CloseSession(s, c);
    assert UpTo(s, c, 2) == Result(UpsertDevice(CloseSession(s, c).state, c).state, None);
  }

  /** Between its first and its fourth write a confirm has closed its session and left orders and ledger alone. */
  lemma CrashedTables(s: State, c: Call, id: string, k: nat)
    requires Inv(s) && c.Confirm? && c.success && DoConfirm(s, c).error.None? && 1 <= k <= 3
    requires c.sessionId in s.sessions && OpenSessionOf(s.sessions[c.sessionId], id)
    ensures var crashed := UpTo(s, c, k).state;
            && crashed.tenants == s.tenants && crashed.rows == s.rows && crashed.orders == s.orders
            && c.sessionId in crashed.sessions && SameSession(s.sessions[c.sessionId], crashed.sessions[c.sessionId])
            && (forall x <- crashed.sessions :: !OpenSessionOf(crashed.sessions[x], id))
            && Linkable(crashed, c, s.sessions[c.sessionId], id)
  {
    PrefixSucceeds(s, c, 0, 5);
    ClosingFreesTheOrder(s, c, id);
    FirstWrites(s, c, id);
    var session := s.sessions[c.sessionId];
    var upserted := UpsertDevice(CloseSession(s, c).state, c).state;
    LinkableThroughout(upserted, c, session, id);
    if k == 1 {
      assert Linkable(CloseSession(s, c).state, c, session, id);
    }
  }

  /** A confirm of an order that has no CONSUMED row yet, whatever the order's status. */
  lemma ConfirmOfUnconsumedOrder(s: State, c: Call, id: string)
    requires c.Confirm? && c.success && ConfirmRefusal(s, c).None? && s.sessions[c.sessionId].orderId == Some(id)
    requires Linkable(s, c, s.sessions[c.sessionId], id)
    requires c.tenant in s.tenants && !HasKey(s.rows, c.tenant, ConsumeKey(id))
    ensures var r := DoConfirm(s, c);
            if Reserved(s.rows, c.tenant, s.orders[id].userId) < 1 then r.error == Some(INSUFFICIENT_RESERVED_QTAGS)
            else r.error.None? && r.state.orders == s.orders[id := s.orders[id].(status := ACTIVATED)]
                 && r.state.rows == s.rows + [ConsumeRow(s.orders[id], id)]
  {
    var upserted := UpsertDevice(CloseSession(s, c).state, c).state;
    var linked := LinkAsset(upserted, c, s.sessions[c.sessionId], id);
    assert UpTo(s, c, 0) == Result(s, None);
    assert UpTo(s, c, 1) == CloseSession(s, c);
    assert UpTo(s, c, 2) == Result(upserted, None);
    assert UpTo(s, c, 3) == linked && linked.error.None?;
    assert UpTo(s, c, 4) == ConsumeReservation(linked.state, c.tenant, id, s.orders[id].userId);
  }

  lemma HeldOrderCanBeReleased(s: State, id: string)
    requires LedgerMatchesOrders(s.tenants, s.rows, s.orders) && id in s.orders && IsHeld(s.orders[id].status)
    ensures var o := s.orders[id];
            DoRelease(s, Release(o.tenantId, id, None))
            == Result(s.(rows := s.rows + [ReleaseRow(o, id)], orders := s.orders[id := o.(status := CANCELLED)]), None)
  {
    var o := s.orders[id];
    assert OrderMatches(s.tenants, s.rows, id, o);
    assert id in HeldIn(s.orders, o.tenantId, o.userId);
  }

  lemma AfterTheRelease(s: State, c: Call, id: string)
    requires LedgerMatchesOrders(s.tenants, s.rows, s.orders)
    requires c.Confirm? && c.success && ConfirmRefusal(s, c).None? && s.sessions[c.sessionId].orderId == Some(id)
    requires Linkable(s, c, s.sessions[c.sessionId], id) && IsHeld(s.orders[id].status)
    ensures var o := s.orders[id];
            var again := DoConfirm(s.(rows := s.rows + [ReleaseRow(o, id)],
                orders := s.orders[id := o.(status := CANCELLED)]), c);
            if Reserved(s.rows, c.tenant, o.userId) < 2 then again.error == Some(INSUFFICIENT_RESERVED_QTAGS)
            else
              && again.error.None? && id in again.state.orders && again.state.orders[id].status == ACTIVATED
              && RowCount(again.state.rows, id, RELEASED) == 1 && RowCount(again.state.rows, id, CONSUMED) == 1
  {
    var o := s.orders[id];
    var o' := o.(status := CANCELLED);
    var rows := s.rows + [ReleaseRow(o, id)];
    assert OrderMatches(s.tenants, s.rows, id, o);
    EndedOrderMatches(s.tenants, s.rows, id, o);
    assert OrderMatches(s.tenants, rows, id, o');
    SumAppend(s.rows, ReleaseRow(o, id), ReservedIn(c.tenant, o.userId));
    assert Reserved(rows, c.tenant, o.userId) == Reserved(s.rows, c.tenant, o.userId) - 1;
    CountAdded(rows, ConsumeRow(o', id), id);
    ConfirmOfUnconsumedOrder(s.(rows := rows, orders := s.orders[id := o']), c, id);
  }

  /** What recovery rests on: a crash between the session and the ledger write leaves the order open to a release. Run
      again after one, the confirm goes through exactly when the scope holds another reservation, and then it spends
      that one on an order already cancelled. */
  lemma ReleaseBeforeTheRerun(s: State, c: Call, id: string, k: nat)
    requires Inv(s) && c.Confirm? && c.success && DoConfirm(s, c).error.None? && 1 <= k <= 3
    requires c.sessionId in s.sessions && OpenSessionOf(s.sessions[c.sessionId], id)
    ensures var crashed := UpTo(s, c, k).state;
            var released := DoRelease(crashed, Release(c.tenant, id, None));
            && Orderly(crashed, Release(c.tenant, id, None)) && released.error.None?
            && id in s.orders
            && var again := DoConfirm(released.state, c);
               if Reserved(s.rows, c.tenant, s.orders[id].userId) < 2 then again.error
                   == Some(INSUFFICIENT_RESERVED_QTAGS)
               else
                 && again.error.None? && id in again.state.orders && again.state.orders[id].status == ACTIVATED
                 && RowCount(again.state.rows, id, RELEASED) == 1 && RowCount(again.state.rows, id, CONSUMED) == 1
  {
    CrashedTables(s, c, id, k);
    var crashed := UpTo(s, c, k).state;
    HeldOrderCanBeReleased(crashed, id);
    StillPassesChecks(s, c, 5);
    AfterTheRelease(crashed, c, id);
  }
}
