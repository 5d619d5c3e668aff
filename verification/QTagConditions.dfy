/** When the QTAG calls go through, and what the sessions of an order and a tagged asset owe to that. */
module QTagConditions {
  import opened Common
  import opened LedgerTable
  import opened QTagOrders
  import opened QTagProofs
  import opened QTagInterrupted
  import opened QTagDevices
  import opened QTagRecovery

  // ----- one call -----

  /** A refused call other than a confirm has written nothing. */
  lemma RefusedCallsChangeNothing(s: State, c: Call)
    requires !c.Confirm? && Step(s, c).error.Some?
    ensures Step(s, c).state == s
  {
    match c
    case Fund(_, _, _, _, _) => assert DoFund(s, c).error.Some? ==> DoFund(s, c).state == s;
    case Reserve(_, _, _, _, _) => assert DoReserve(s, c).error.Some? ==> DoReserve(s, c).state == s;
    case Start(_, _, _, _, _, _) => assert DoStart(s, c).error.Some? ==> DoStart(s, c).state == s;
    case Release(_, _, _) => assert DoRelease(s, c).error.Some? ==> DoRelease(s, c).state == s;
  }

  ghost predicate KeyIsFree(rows: seq<Entry>, tenant: string, key: Option<string>, derived: string) {
    forall i :: 0 <= i < |rows| && rows[i].tenantId == tenant ==>
      if key.None? || key == Some("") then rows[i].idempotencyKey != Some(derived) else rows[i].idempotencyKey != key
  }

  lemma KeyIsFreeIff(rows: seq<Entry>, tenant: string, key: Option<string>, derived: string)
    ensures KeyIsFree(rows, tenant, key, derived) <==> !HasKey(rows, tenant, OrDefault(key, derived))
  {
    forall i | 0 <= i < |rows| && HasKeyAt(rows[i], tenant, OrDefault(key, derived))
      ensures !KeyIsFree(rows, tenant, key, derived) {
    }
    if forall i :: 0 <= i < |rows| ==> !HasKeyAt(rows[i], tenant, OrDefault(key, derived)) {
      forall i | 0 <= i < |rows| && rows[i].tenantId == tenant
        ensures if key.None? || key == Some("") then rows[i].idempotencyKey != Some(derived)
                else rows[i].idempotencyKey != key {
        assert !HasKeyAt(rows[i], tenant, OrDefault(key, derived));
      }
    }
  }

  /** A grant or a confirmed purchase is written if and only if it is for a positive quantity and an existing tenant,
      its key, if it has one, is new, and a purchase has a key that is not blank. */
  lemma FundGoesThroughIff(s: State, c: Call)
    requires c.Fund?
    ensures Step(s, c).state.rows != s.rows <==>
              && c.quantity > 0 && c.tenant in s.tenants
              && (c.key.Some? ==>
                    forall i :: 0 <= i < |s.rows| && s.rows[i].tenantId == c.tenant ==>
                        s.rows[i].idempotencyKey != c.key)
              && (c.purchased ==> c.key.Some? && !Blank(c.key.value))
  {
    if c.key.Some? {
      assert HasKey(s.rows, c.tenant, c.key.value)
             <==> exists i ::
               0 <= i < |s.rows| && s.rows[i].tenantId == c.tenant
               && s.rows[i].idempotencyKey == c.key by {
        forall i | 0 <= i < |s.rows| && s.rows[i].tenantId == c.tenant && s.rows[i].idempotencyKey == c.key
          ensures HasKeyAt(s.rows[i], c.tenant, c.key.value) {
        }
      }
    }
  }

  /** A reservation creates its order if and only if the tenant exists, the asset is the tenant's and untagged, the key
      is new, no other order of the asset is live and the user has a tag. */
  lemma ReserveGoesThroughIff(s: State, c: Call)
    requires c.Reserve? && c.orderId !in s.orders
    ensures c.orderId in Step(s, c).state.orders <==>
              && c.tenant in s.tenants && c.assetId in s.assets && s.assets[c.assetId].tenantId == c.tenant
              && (s.assets[c.assetId].deviceId == None || s.assets[c.assetId].deviceId == Some(""))
              && KeyIsFree(s.rows, c.tenant, c.key, "qtag-reserve:" + c.tenant + ":" + c.assetId)
              && (forall o <- s.orders :: s.orders[o].tenantId == c.tenant && s.orders[o].assetId == c.assetId ==>
                    s.orders[o].status.CANCELLED? || s.orders[o].status.EXPIRED?)
              && Available(s.rows, c.tenant, c.user) >= 1
    ensures c.orderId in Step(s, c).state.orders ==>
              Step(s, c).state.orders[c.orderId]
              == Order(c.tenant, if c.user == Some("") then None else c.user, c.assetId, REQUESTED, 0)
  {
    KeyIsFreeIff(s.rows, c.tenant, c.key, "qtag-reserve:" + c.tenant + ":" + c.assetId);
  }

  /** An encoding session starts if and only if the uid is fourteen hexadecimal digits and the order, if one is named,
      is the tenant's, for this asset, and waiting to be encoded. */
  lemma StartGoesThroughIff(s: State, c: Call)
    requires c.Start? && c.sessionId !in s.sessions
    ensures c.sessionId in Step(s, c).state.sessions <==>
              && IsUid(c.ntagUID)
              && (c.order.None? || c.order == Some("")
                  || (c.order.value in s.orders && s.orders[c.order.value].tenantId == c.tenant
                      && s.orders[c.order.value].assetId == c.assetId
                      && s.orders[c.order.value].status in {REQUESTED, READY_FOR_ENCODING, ENCODING_FAILED}))
    ensures c.sessionId in Step(s, c).state.sessions ==>
              var session := Step(s, c).state.sessions[c.sessionId];
              && session.tenantId == c.tenant && session.assetId == c.assetId && session.keys == c.keys
              && session.ntagUID == Lower(c.ntagUID) && session.status == IN_PROGRESS
              && session.orderId == (if c.order == Some("") then None else c.order)
              && (session.orderId.Some? ==> Step(s, c).state.orders[c.order.value].status == ENCODING_IN_PROGRESS)
  {
  }

  /** A release cancels if and only if the tenant exists, the order is the tenant's and not ACTIVATED, the key is new
      and the order's user has a reserved tag. */
  lemma ReleaseGoesThroughIff(s: State, c: Call)
    requires c.Release?
    ensures Step(s, c).state.rows != s.rows <==>
              && c.tenant in s.tenants && c.orderId in s.orders && s.orders[c.orderId].tenantId == c.tenant
              && s.orders[c.orderId].status != ACTIVATED
              && KeyIsFree(s.rows, c.tenant, c.key, "qtag-release:" + c.orderId)
              && Reserved(s.rows, c.tenant, s.orders[c.orderId].userId) >= 1
    ensures Step(s, c).state.rows != s.rows ==> Step(s, c).state.orders[c.orderId].status == CANCELLED
  {
    KeyIsFreeIff(s.rows, c.tenant, c.key, "qtag-release:" + c.orderId);
  }

  /** A confirm of an order's open session activates the order if and only if it is the session's tenant's and for its
      uid, reports success and a complete write, and no other asset carries the uid; it fails the order if and only if
      it is the session's tenant's and for its uid and reports no success. */
  lemma ConfirmDecidesIff(s: State, c: Call, id: string)
    requires Inv(s) && Tagged(s) && c.Confirm? && c.sessionId in s.sessions
             && OpenSessionOf(s.sessions[c.sessionId], id)
    ensures id in s.orders && id in Step(s, c).state.orders
    ensures Step(s, c).state.orders[id].status == ACTIVATED <==>
              && Accepted(s, c)
              && forall a <- s.assets :: a != s.orders[id].assetId ==> s.assets[a].deviceId != Some(Lower(c.ntagUID))
    ensures Step(s, c).state.orders[id].status == ENCODING_FAILED <==>
              && !c.success && s.sessions[c.sessionId].tenantId == c.tenant
              && s.sessions[c.sessionId].ntagUID == Lower(c.ntagUID)
  {
    assert SessionFits(s.sessions[c.sessionId], s.orders, id);
    if ConfirmRefusal(s, c).Some? {
      RefusedConfirmChangesNothing(s, c, 5);
    } else if c.success {
      SuccessfulConfirmOutcome(s, c, id);
    } else {
      FailedConfirmFails(s, c, id);
    }
  }

  lemma FailedConfirmFails(s: State, c: Call, id: string)
    requires c.Confirm? && ConfirmRefusal(s, c).None? && !c.success && id in s.orders
    requires s.sessions[c.sessionId].orderId == Some(id)
    ensures DoConfirm(s, c).state.orders == s.orders[id := s.orders[id].(status := ENCODING_FAILED)]
  {
    assert UpTo(s, c, 0) == Result(s, None);
    assert UpTo(s, c, 1) == CloseSession(s, c);
    var p2, p3, p4 := UpTo(s, c, 2), UpTo(s, c, 3), UpTo(s, c, 4);
    assert p2.state.orders == s.orders[id := s.orders[id].(status := ENCODING_FAILED)];
    assert p3 == p2 && p4 == p2;
  }

  // ----- tagged assets -----

  /** The asset is linked to a device and has no order. */
  predicate TaggedAlone(s: State, assetId: string) {
    && assetId in s.assets && s.assets[assetId].deviceId.Some? && s.assets[assetId].deviceId.value != ""
    && forall id <- s.orders :: s.orders[id].assetId != assetId
  }

  lemma WriteKeepsTaggedAlone(s: State, c: Call, n: nat, assetId: string)
    requires c.Confirm? && c.sessionId in s.sessions && TaggedAlone(s, assetId)
    ensures TaggedAlone(Write(s, c, n).state, assetId)
    ensures Write(s, c, n).state.assets[assetId] == s.assets[assetId]
  {
  }

  lemma {:induction false} ConfirmKeepsTaggedAlone(s: State, c: Call, n: nat, assetId: string)
    requires c.Confirm? && TaggedAlone(s, assetId)
    ensures TaggedAlone(UpTo(s, c, n).state, assetId)
    ensures UpTo(s, c, n).state.assets[assetId] == s.assets[assetId]
  {
    if n == 0 {
    } else {
      ConfirmKeepsTaggedAlone(s, c, n - 1, assetId);
      if UpTo(s, c, n - 1).error.None? {
        WriteKeepsTaggedAlone(UpTo(s, c, n - 1).state, c, n, assetId);
      }
    }
  }

  lemma MoveKeepsTaggedAlone(s: State, m: Move, assetId: string)
    requires TaggedAlone(s, assetId)
    ensures TaggedAlone(After(s, m), assetId) && After(s, m).assets[assetId] == s.assets[assetId]
  {
    var c := m.call;
    if c.Confirm? {
      ConfirmKeepsTaggedAlone(s, c, if m.Stop? then Least(m.writes, 5) else 5, assetId);
    } else if m.Do? {
      match c
      case Fund(_, _, _, _, _) => assert DoFund(s, c).state.orders == s.orders;
      case Reserve(_, _, _, _, _) => assert TaggedAlone(DoReserve(s, c).state, assetId);
      case Start(_, _, _, _, _, _) => assert TaggedAlone(DoStart(s, c).state, assetId);
      case Release(_, _, _) => assert TaggedAlone(DoRelease(s, c).state, assetId);
    }
  }

  /** Over every run: an asset that carries a device from the start is never ordered a tag and keeps its device. */
  lemma {:induction false} TaggedAssetsAreLeftAlone(tenants: set<string>, assets: map<string, Asset>, moves: seq<Move>,
                                                    assetId: string)
    requires assetId in assets && assets[assetId].deviceId.Some? && assets[assetId].deviceId.value != ""
    ensures var s := RunOf(Empty(tenants, assets), moves);
            TaggedAlone(s, assetId) && s.assets[assetId] == assets[assetId]
  {
    if moves == [] {
    } else {
      TaggedAssetsAreLeftAlone(tenants, assets, moves[..|moves| - 1], assetId);
      MoveKeepsTaggedAlone(RunOf(Empty(tenants, assets), moves[..|moves| - 1]), moves[|moves| - 1], assetId);
    }
  }

  // ----- sessions and attempts -----

  /** The sessions of an order. */
  function SessionsOf(sessions: map<string, Session>, id: string): set<string> {
    set x | x in sessions && sessions[x].orderId == Some(id)
  }

  ghost predicate SessionsCounted(sessions: map<string, Session>, orders: map<string, Order>) {
    && (forall id <- orders :: orders[id].attempts == |SessionsOf(sessions, id)|)
    && forall x <- sessions :: sessions[x].orderId.Some? ==> sessions[x].orderId.value in orders
  }

  ghost predicate SessionsNumbered(sessions: map<string, Session>, orders: map<string, Order>) {
    && (forall x, id :: x in sessions && id in orders && sessions[x].orderId == Some(id) ==>
          1 <= sessions[x].attemptNo <= orders[id].attempts)
    && forall x, y :: (x in sessions && y in sessions && x != y && sessions[x].orderId.Some?
                       && sessions[x].orderId == sessions[y].orderId) ==> sessions[x].attemptNo != sessions[y].attemptNo
  }

  /** As many attempts as sessions, numbered from one on. */
  ghost predicate AttemptsCount(sessions: map<string, Session>, orders: map<string, Order>) {
    SessionsCounted(sessions, orders) && SessionsNumbered(sessions, orders)
  }

  predicate SameCounts(orders: map<string, Order>, orders': map<string, Order>) {
    orders'.Keys == orders.Keys && forall id <- orders :: orders'[id].attempts == orders[id].attempts
  }

  /** Sessions only close. */
  predicate SessionsSame(sessions: map<string, Session>, sessions': map<string, Session>) {
    sessions'.Keys == sessions.Keys && forall x <- sessions :: SameSession(sessions[x], sessions'[x])
  }

  lemma SameAttemptsCount(sessions: map<string, Session>, orders: map<string, Order>, sessions': map<string, Session>,
                          orders': map<string, Order>)
    requires AttemptsCount(sessions, orders) && SessionsSame(sessions, sessions') && SameCounts(orders, orders')
    ensures AttemptsCount(sessions', orders')
  {
    forall id ensures SessionsOf(sessions', id) == SessionsOf(sessions, id) {
    }
  }

  lemma SessionsOfWithNew(sessions: map<string, Session>, x: string, session: Session, id: string)
    requires x !in sessions
    ensures |SessionsOf(sessions[x := session], id)|
            == |SessionsOf(sessions, id)| + if session.orderId == Some(id) then 1 else 0
  {
    var before := SessionsOf(sessions, id);
    assert x !in before;
    assert SessionsOf(sessions[x := session], id) == before + if session.orderId == Some(id) then {x} else {};
  }

  lemma NewOrderCounts(sessions: map<string, Session>, orders: map<string, Order>, id: string, o: Order)
    requires AttemptsCount(sessions, orders) && id !in orders && o.attempts == 0
    ensures AttemptsCount(sessions, orders[id := o])
  {
    assert SessionsOf(sessions, id) == {};
  }

  lemma PlainSessionCounts(sessions: map<string, Session>, orders: map<string, Order>, x: string, session: Session)
    requires AttemptsCount(sessions, orders) && x !in sessions && session.orderId.None?
    ensures AttemptsCount(sessions[x := session], orders)
  {
    assert SessionsNumbered(sessions[x := session], orders);
    forall id ensures |SessionsOf(sessions[x := session], id)| == |SessionsOf(sessions, id)| {
      SessionsOfWithNew(sessions, x, session, id);
    }
  }

  lemma NewSessionIsNumbered(sessions: map<string, Session>, orders: map<string, Order>, x: string, session: Session,
                             id: string, o: Order)
    requires SessionsNumbered(sessions, orders) && x !in sessions && session.orderId == Some(id) && id in orders
    requires session.attemptNo == o.attempts == orders[id].attempts + 1
    ensures SessionsNumbered(sessions[x := session], orders[id := o])
  {
  }

  lemma NewSessionCounts(sessions: map<string, Session>, orders: map<string, Order>, x: string, session: Session,
                         id: string, o: Order)
    requires SessionsCounted(sessions, orders) && x !in sessions && session.orderId == Some(id) && id in orders
    requires o.attempts == orders[id].attempts + 1
    ensures SessionsCounted(sessions[x := session], orders[id := o])
  {
    forall y ensures |SessionsOf(sessions[x := session], y)| == |SessionsOf(sessions, y)| + if y == id then 1 else 0 {
      SessionsOfWithNew(sessions, x, session, y);
    }
  }

  lemma WriteKeepsAttempts(s: State, c: Call, n: nat)
    requires c.Confirm? && c.sessionId in s.sessions
    ensures SameCounts(s.orders, Write(s, c, n).state.orders)
  {
  }

  lemma {:induction false} ConfirmKeepsAttempts(s: State, c: Call, n: nat)
    requires c.Confirm?
    ensures SameCounts(s.orders, UpTo(s, c, n).state.orders)
  {
    if n == 0 {
    } else {
      ConfirmKeepsAttempts(s, c, n - 1);
      if UpTo(s, c, n - 1).error.None? {
        WriteKeepsAttempts(UpTo(s, c, n - 1).state, c, n);
      }
    }
  }

  lemma StartCounts(s: State, c: Call)
    requires c.Start? && c.sessionId !in s.sessions && AttemptsCount(s.sessions, s.orders)
    ensures AttemptsCount(DoStart(s, c).state.sessions, DoStart(s, c).state.orders)
  {
    var s' := DoStart(s, c).state;
    if s' != s {
      var session := s'.sessions[c.sessionId];
      assert s'.sessions == s.sessions[c.sessionId := session];
      if Real(c.order) {
        NewSessionCounts(s.sessions, s.orders, c.sessionId, session, c.order.value, s'.orders[c.order.value]);
        NewSessionIsNumbered(s.sessions, s.orders, c.sessionId, session, c.order.value, s'.orders[c.order.value]);
        assert s'.orders == s.orders[c.order.value := s'.orders[c.order.value]];
      } else {
        PlainSessionCounts(s.sessions, s.orders, c.sessionId, session);
      }
    }
  }

  lemma ReserveCounts(s: State, c: Call)
    requires c.Reserve? && c.orderId !in s.orders && AttemptsCount(s.sessions, s.orders)
    ensures AttemptsCount(DoReserve(s, c).state.sessions, DoReserve(s, c).state.orders)
  {
    var s' := DoReserve(s, c).state;
    if s' != s {
      NewOrderCounts(s.sessions, s.orders, c.orderId, s'.orders[c.orderId]);
    }
  }

  lemma ReleaseKeepsAttempts(s: State, c: Call)
    requires c.Release?
    ensures SameCounts(s.orders, DoRelease(s, c).state.orders) && DoRelease(s, c).state.sessions == s.sessions
  {
  }

  lemma ReleaseCounts(s: State, c: Call)
    requires c.Release? && AttemptsCount(s.sessions, s.orders)
    ensures AttemptsCount(DoRelease(s, c).state.sessions, DoRelease(s, c).state.orders)
  {
    ReleaseKeepsAttempts(s, c);
    SameAttemptsCount(s.sessions, s.orders, s.sessions, DoRelease(s, c).state.orders);
  }

  lemma MoveCounts(s: State, m: Move)
    requires Permitted(s, m.call) && AttemptsCount(s.sessions, s.orders)
    ensures AttemptsCount(After(s, m).sessions, After(s, m).orders)
  {
    var c := m.call;
    if c.Confirm? {
      ConfirmKeepsAttempts(s, c, if m.Stop? then Least(m.writes, 5) else 5);
      ConfirmKeepsSessions(s, c, if m.Stop? then Least(m.writes, 5) else 5);
      SameAttemptsCount(s.sessions, s.orders, After(s, m).sessions, After(s, m).orders);
    } else if m.Do? {
      match c
      case Fund(_, _, _, _, _) => assert DoFund(s, c).state.sessions == s.sessions
        && DoFund(s, c).state.orders == s.orders;
      case Reserve(_, _, _, _, _) => ReserveCounts(s, c);
      case Start(_, _, _, _, _, _) => StartCounts(s, c);
      case Release(_, _, _) => ReleaseCounts(s, c);
    }
  }

  /** Over every permitted run: an order counts its sessions, and they are numbered one to the number of attempts. */
  lemma {:induction false} AttemptsNumberTheSessions(tenants: set<string>, assets: map<string, Asset>, moves: seq<Move>)
    requires PermittedRun(Empty(tenants, assets), moves)
    ensures var s := RunOf(Empty(tenants, assets), moves); AttemptsCount(s.sessions, s.orders)
  {
    if moves == [] {
    } else {
      AttemptsNumberTheSessions(tenants, assets, moves[..|moves| - 1]);
      MoveCounts(RunOf(Empty(tenants, assets), moves[..|moves| - 1]), moves[|moves| - 1]);
    }
  }
}
