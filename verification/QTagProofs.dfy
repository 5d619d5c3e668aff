/** What keeps the QTAG orders and the QTAG ledger in step. */
module QTagProofs {
  import opened Common
  import opened LedgerTable
  import opened QTagOrders

  // ----- keys -----

  const CONSUME_PREFIX := "qtag-consume:"
  const RELEASE_PREFIX := "qtag-release:"

  /** A caller's own key stays out of the two key families the facet derives from order ids. */
  predicate Foreign(key: string) {
    !(CONSUME_PREFIX <= key) && !(RELEASE_PREFIX <= key)
  }

  lemma DerivedKeys(a: string, b: string)
    ensures ConsumeKey(a) == ConsumeKey(b) ==> a == b
    ensures ReleaseKey(a) == ReleaseKey(b) ==> a == b
    ensures ConsumeKey(a) != ReleaseKey(b)
    ensures !Foreign(ConsumeKey(a)) && !Foreign(ReleaseKey(a))
  {
    assert ConsumeKey(a)[5] == 'c' && ReleaseKey(b)[5] == 'r';
    assert ConsumeKey(a)[13..] == a && ConsumeKey(b)[13..] == b;
    assert ReleaseKey(a)[13..] == a && ReleaseKey(b)[13..] == b;
  }

  lemma ReserveKeyIsForeign(tenant: string, assetId: string)
    ensures Foreign(ReserveKey(tenant, assetId))
  {
    var key := ReserveKey(tenant, assetId);
    assert key[5] == 'r' && key[7] == 's';
    assert CONSUME_PREFIX[5] == 'c' && RELEASE_PREFIX[7] == 'l';
  }

  // ----- the agreement -----

  predicate IsHeld(status: OrderStatus) {
    status.REQUESTED? || status.ENCODING_IN_PROGRESS? || status.ENCODING_FAILED?
  }

  predicate OrderInScope(o: Order, tenant: string, user: Option<string>) {
    o.tenantId == tenant && (Real(user) ==> o.userId == user)
  }

  /** The orders of a scope that hold a reserved tag. */
  function HeldIn(orders: map<string, Order>, tenant: string, user: Option<string>): set<string> {
    set o | o in orders && OrderInScope(orders[o], tenant, user) && IsHeld(orders[o].status)
  }

  function RowsOf(orderId: string, kind: EntryType): Entry -> int {
    (e: Entry) => if e.orderId == Some(orderId) && e.entryType == kind then 1 else 0
  }

  function RowCount(rows: seq<Entry>, orderId: string, kind: EntryType): int {
    Sum(rows, RowsOf(orderId, kind))
  }

  /** One order against its ledger rows. */
  ghost predicate OrderMatches(tenants: set<string>, rows: seq<Entry>, id: string, o: Order) {
    && o.tenantId in tenants
    && o.userId == OrUndefined(o.userId)
    && (IsHeld(o.status) || o.status.ACTIVATED? || o.status.CANCELLED?)
    && (HasKey(rows, o.tenantId, ConsumeKey(id)) <==> o.status.ACTIVATED?)
    && (HasKey(rows, o.tenantId, ReleaseKey(id)) <==> o.status.CANCELLED?)
    && RowCount(rows, id, RESERVED) == 1
    && RowCount(rows, id, CONSUMED) == (if o.status.ACTIVATED? then 1 else 0)
    && RowCount(rows, id, RELEASED) == (if o.status.CANCELLED? then 1 else 0)
  }

  /** No row and no derived key exists for an order that was never created. */
  ghost predicate NothingBefore(rows: seq<Entry>, id: string) {
    && RowCount(rows, id, RESERVED) == 0 && RowCount(rows, id, CONSUMED) == 0 && RowCount(rows, id, RELEASED) == 0
    && (forall t :: !HasKey(rows, t, ConsumeKey(id)) && !HasKey(rows, t, ReleaseKey(id)))
  }

  predicate OpenSessionOf(session: Session, orderId: string) {
    session.status.IN_PROGRESS? && session.orderId == Some(orderId)
  }

  predicate SessionFits(session: Session, orders: map<string, Order>, id: string) {
    && id in orders
    && orders[id].status.ENCODING_IN_PROGRESS?
    && orders[id].tenantId == session.tenantId
    && orders[id].assetId == session.assetId
  }

  /** An open session's order is being encoded, for the session's tenant and asset, by no other open session. */
  ghost predicate SessionsMatchOrders(sessions: map<string, Session>, orders: map<string, Order>) {
    && (forall x, id :: x in sessions && OpenSessionOf(sessions[x], id) ==> SessionFits(sessions[x], orders, id))
    && (forall x, y, id ::
          x in sessions && y in sessions && OpenSessionOf(sessions[x], id) && OpenSessionOf(sessions[y], id) ==> x == y)
  }

  ghost predicate LedgerMatchesOrders(tenants: set<string>, rows: seq<Entry>, orders: map<string, Order>) {
    && (forall t, u :: Reserved(rows, t, u) == |HeldIn(orders, t, u)|)
    && (forall id :: id in orders ==> OrderMatches(tenants, rows, id, orders[id]))
    && (forall id :: id !in orders ==> NothingBefore(rows, id))
  }

  ghost predicate Inv(s: State) {
    LedgerMatchesOrders(s.tenants, s.rows, s.orders) && SessionsMatchOrders(s.sessions, s.orders)
  }

  /** The discipline of a serial run: ids are fresh, a caller's key stays out of the derived families, a session is
      confirmed once, and nothing is released while one of its sessions is open. */
  predicate Orderly(s: State, c: Call) {
    match c
    case Fund(_, _, _, _, key) => key.Some? ==> Foreign(key.value)
    case Reserve(_, _, _, key, orderId) => orderId !in s.orders && (key.Some? ==> Foreign(key.value))
    case Start(_, _, _, _, sessionId, _) => sessionId !in s.sessions
    case Confirm(_, sessionId, _, _, _) => sessionId in s.sessions ==> s.sessions[sessionId].status.IN_PROGRESS?
    case Release(_, orderId, key) => !Real(key) && forall x <- s.sessions :: !OpenSessionOf(s.sessions[x], orderId)
  }

  // ----- one row more -----

  /** A row that does not concern an order: neither its id nor its derived keys. */
  predicate Unconcerned(e: Entry, id: string) {
    e.orderId != Some(id) && e.idempotencyKey != Some(ConsumeKey(id)) && e.idempotencyKey != Some(ReleaseKey(id))
  }

  lemma KeyAdded(rows: seq<Entry>, e: Entry, tenant: string, key: string)
    ensures HasKey(rows + [e], tenant, key) <==> HasKey(rows, tenant, key) || HasKeyAt(e, tenant, key)
  {
    AppendRow(rows, e);
  }

  lemma CountAdded(rows: seq<Entry>, e: Entry, id: string)
    ensures RowCount(rows + [e], id, RESERVED) == RowCount(rows, id, RESERVED) + RowsOf(id, RESERVED)(e)
    ensures RowCount(rows + [e], id, CONSUMED) == RowCount(rows, id, CONSUMED) + RowsOf(id, CONSUMED)(e)
    ensures RowCount(rows + [e], id, RELEASED) == RowCount(rows, id, RELEASED) + RowsOf(id, RELEASED)(e)
  {
    SumAppend(rows, e, RowsOf(id, RESERVED));
    SumAppend(rows, e, RowsOf(id, CONSUMED));
    SumAppend(rows, e, RowsOf(id, RELEASED));
  }

  lemma OrderUnconcerned(tenants: set<string>, rows: seq<Entry>, e: Entry, id: string, o: Order)
    requires OrderMatches(tenants, rows, id, o) && Unconcerned(e, id)
    ensures OrderMatches(tenants, rows + [e], id, o)
  {
    CountAdded(rows, e, id);
    KeyAdded(rows, e, o.tenantId, ConsumeKey(id));
    KeyAdded(rows, e, o.tenantId, ReleaseKey(id));
  }

  lemma NothingUnconcerned(rows: seq<Entry>, e: Entry, id: string)
    requires NothingBefore(rows, id) && Unconcerned(e, id)
    ensures NothingBefore(rows + [e], id)
  {
    CountAdded(rows, e, id);
    forall t ensures !HasKey(rows + [e], t, ConsumeKey(id)) && !HasKey(rows + [e], t, ReleaseKey(id)) {
      KeyAdded(rows, e, t, ConsumeKey(id));
      KeyAdded(rows, e, t, ReleaseKey(id));
    }
  }

  lemma ForeignRowUnconcerned(e: Entry, id: string)
    requires e.orderId != Some(id) && (e.idempotencyKey.Some? ==> Foreign(e.idempotencyKey.value))
    ensures Unconcerned(e, id)
  {
    DerivedKeys(id, id);
  }

  lemma NewOrderMatches(tenants: set<string>, rows: seq<Entry>, id: string, o: Order, key: string)
    requires NothingBefore(rows, id) && Foreign(key)
    requires o.tenantId in tenants && o.userId == OrUndefined(o.userId) && o.status.REQUESTED?
    ensures OrderMatches(tenants, rows + [ReserveRow(o, id, key)], id, o)
  {
    CountAdded(rows, ReserveRow(o, id, key), id);
    DerivedKeys(id, id);
    KeyAdded(rows, ReserveRow(o, id, key), o.tenantId, ConsumeKey(id));
    KeyAdded(rows, ReserveRow(o, id, key), o.tenantId, ReleaseKey(id));
  }

  lemma EndedOrderMatches(tenants: set<string>, rows: seq<Entry>, id: string, o: Order)
    requires OrderMatches(tenants, rows, id, o) && IsHeld(o.status)
    ensures OrderMatches(tenants, rows + [ConsumeRow(o, id)], id, o.(status := ACTIVATED))
    ensures OrderMatches(tenants, rows + [ReleaseRow(o, id)], id, o.(status := CANCELLED))
  {
    DerivedKeys(id, id);
    CountAdded(rows, ConsumeRow(o, id), id);
    KeyAdded(rows, ConsumeRow(o, id), o.tenantId, ConsumeKey(id));
    KeyAdded(rows, ConsumeRow(o, id), o.tenantId, ReleaseKey(id));
    CountAdded(rows, ReleaseRow(o, id), id);
    KeyAdded(rows, ReleaseRow(o, id), o.tenantId, ConsumeKey(id));
    KeyAdded(rows, ReleaseRow(o, id), o.tenantId, ReleaseKey(id));
  }

  // ----- the held orders -----

  lemma HeldWithNew(orders: map<string, Order>, id: string, o: Order, t: string, u: Option<string>)
    requires id !in orders && IsHeld(o.status)
    ensures |HeldIn(orders[id := o], t, u)| == |HeldIn(orders, t, u)| + if OrderInScope(o, t, u) then 1 else 0
  {
    var before, after := HeldIn(orders, t, u), HeldIn(orders[id := o], t, u);
    assert id !in before;
    assert forall x :: x != id ==> (x in after <==> x in before);
    assert id in after <==> OrderInScope(o, t, u);
    assert after == before + if OrderInScope(o, t, u) then {id} else {};
  }

  lemma HeldAfterMove(orders: map<string, Order>, id: string, o: Order, t: string, u: Option<string>)
    requires id in orders && o.tenantId == orders[id].tenantId && o.userId == orders[id].userId
             && IsHeld(orders[id].status)
    ensures |HeldIn(orders[id := o], t, u)| == |HeldIn(orders, t, u)| - if OrderInScope(o, t, u)
            && !IsHeld(o.status) then 1 else 0
  {
    var after := HeldIn(orders[id := o], t, u);
    if OrderInScope(o, t, u) && !IsHeld(o.status) {
      assert after == HeldIn(orders, t, u) - {id};
    } else {
      assert after == HeldIn(orders, t, u);
    }
  }

  // ----- every change keeps the agreement -----

  lemma ForeignRowKeepsLedger(tenants: set<string>, rows: seq<Entry>, orders: map<string, Order>, e: Entry)
    requires LedgerMatchesOrders(tenants, rows, orders)
    requires e.orderId == None && e.reservedDelta == 0 && (e.idempotencyKey.Some? ==> Foreign(e.idempotencyKey.value))
    ensures LedgerMatchesOrders(tenants, rows + [e], orders)
  {
    forall t, u ensures Reserved(rows + [e], t, u) == |HeldIn(orders, t, u)| {
      SumAppend(rows, e, ReservedIn(t, u));
    }
    forall id | id in orders ensures OrderMatches(tenants, rows + [e], id, orders[id]) {
      ForeignRowUnconcerned(e, id);
      OrderUnconcerned(tenants, rows, e, id, orders[id]);
    }
    forall id | id !in orders ensures NothingBefore(rows + [e], id) {
      ForeignRowUnconcerned(e, id);
      NothingUnconcerned(rows, e, id);
    }
  }

  lemma NewOrderKeepsLedger(tenants: set<string>, rows: seq<Entry>, orders: map<string, Order>, id: string, o: Order,
                            key: string)
    requires LedgerMatchesOrders(tenants, rows, orders) && id !in orders && Foreign(key)
    requires o.tenantId in tenants && o.userId == OrUndefined(o.userId) && o.status.REQUESTED?
    ensures LedgerMatchesOrders(tenants, rows + [ReserveRow(o, id, key)], orders[id := o])
  {
    var e := ReserveRow(o, id, key);
    forall t, u ensures Reserved(rows + [e], t, u) == |HeldIn(orders[id := o], t, u)| {
      SumAppend(rows, e, ReservedIn(t, u));
      HeldWithNew(orders, id, o, t, u);
    }
    NewOrderMatches(tenants, rows, id, o, key);
    forall x | x in orders[id := o] && x != id ensures OrderMatches(tenants, rows + [e], x, orders[x]) {
      ForeignRowUnconcerned(e, x);
      OrderUnconcerned(tenants, rows, e, x, orders[x]);
    }
    forall x | x !in orders[id := o] ensures NothingBefore(rows + [e], x) {
      ForeignRowUnconcerned(e, x);
      NothingUnconcerned(rows, e, x);
    }
  }

  /** A held order that stays held leaves the ledger agreement alone. */
  lemma HeldMoveKeepsLedger(tenants: set<string>, rows: seq<Entry>, orders: map<string, Order>, id: string, o: Order)
    requires LedgerMatchesOrders(tenants, rows, orders) && id in orders && IsHeld(orders[id].status) && IsHeld(o.status)
    requires o.tenantId == orders[id].tenantId && o.userId == orders[id].userId
    ensures LedgerMatchesOrders(tenants, rows, orders[id := o])
  {
    forall t, u ensures Reserved(rows, t, u) == |HeldIn(orders[id := o], t, u)| {
      HeldAfterMove(orders, id, o, t, u);
    }
    assert OrderMatches(tenants, rows, id, orders[id]);
  }

  /** Ending a held order together with its consume or release row keeps the ledger agreement. */
  lemma EndingKeepsLedger(tenants: set<string>, rows: seq<Entry>, orders: map<string, Order>, id: string, e: Entry,
                          status: OrderStatus)
    requires LedgerMatchesOrders(tenants, rows, orders) && id in orders && IsHeld(orders[id].status)
    requires (status.ACTIVATED? && e == ConsumeRow(orders[id], id))
             || (status.CANCELLED? && e == ReleaseRow(orders[id], id))
    ensures LedgerMatchesOrders(tenants, rows + [e], orders[id := orders[id].(status := status)])
  {
    var o := orders[id];
    var o' := o.(status := status);
    assert OrderMatches(tenants, rows, id, o);
    forall t, u ensures Reserved(rows + [e], t, u) == |HeldIn(orders[id := o'], t, u)| {
      SumAppend(rows, e, ReservedIn(t, u));
      HeldAfterMove(orders, id, o', t, u);
    }
    EndedOrderMatches(tenants, rows, id, o);
    forall x | x in orders && x != id ensures OrderMatches(tenants, rows + [e], x, orders[x]) {
      DerivedKeys(id, x);
      DerivedKeys(x, id);
      OrderUnconcerned(tenants, rows, e, x, orders[x]);
    }
    forall x | x !in orders ensures NothingBefore(rows + [e], x) {
      DerivedKeys(id, x);
      DerivedKeys(x, id);
      NothingUnconcerned(rows, e, x);
    }
  }

  /** Orders no open session names may change freely. */
  lemma IdleOrderKeepsSessions(sessions: map<string, Session>, orders: map<string, Order>, id: string, o: Order)
    requires SessionsMatchOrders(sessions, orders)
    requires forall x <- sessions :: !OpenSessionOf(sessions[x], id)
    ensures SessionsMatchOrders(sessions, orders[id := o])
  {
  }

  lemma NewSessionKeepsSessions(sessions: map<string, Session>, orders: map<string, Order>, x: string, session: Session)
    requires SessionsMatchOrders(sessions, orders) && x !in sessions
    requires session.orderId.Some? ==>
               SessionFits(session, orders, session.orderId.value)
                 && forall y <- sessions :: !OpenSessionOf(sessions[y], session.orderId.value)
    ensures SessionsMatchOrders(sessions[x := session], orders)
  {
  }

  lemma ClosedSessionKeepsSessions(sessions: map<string, Session>, orders: map<string, Order>, x: string,
                                   session: Session)
    requires SessionsMatchOrders(sessions, orders) && !session.status.IN_PROGRESS?
    ensures SessionsMatchOrders(sessions[x := session], orders)
  {
  }

  lemma FundKeepsInv(s: State, c: Call)
    requires Inv(s) && c.Fund? && Orderly(s, c)
    ensures Inv(DoFund(s, c).state)
  {
    var e := Entry(c.tenant, OrUndefined(c.user), if c.purchased then PURCHASED else GRANTED, c.quantity, c.quantity,
        0, c.key, None);
    if DoFund(s, c).state != s {
      assert DoFund(s, c).state == s.(rows := s.rows + [e]);
      ForeignRowKeepsLedger(s.tenants, s.rows, s.orders, e);
    }
  }

  lemma ReserveKeepsInv(s: State, c: Call)
    requires Inv(s) && c.Reserve? && Orderly(s, c)
    ensures Inv(DoReserve(s, c).state)
  {
    if DoReserve(s, c).state != s {
      var order := Order(c.tenant, OrUndefined(c.user), c.assetId, REQUESTED, 0);
      var key := OrDefault(c.key, ReserveKey(c.tenant, c.assetId));
      assert DoReserve(s, c).state == s.(orders := s.orders[c.orderId := order],
          rows := s.rows + [ReserveRow(order, c.orderId, key)]);
      ReserveKeyIsForeign(c.tenant, c.assetId);
      NewOrderKeepsLedger(s.tenants, s.rows, s.orders, c.orderId, order, key);
      IdleOrderKeepsSessions(s.sessions, s.orders, c.orderId, order);
    }
  }

  lemma StartedOrderKeepsLedger(s: State, id: string, o: Order)
    requires LedgerMatchesOrders(s.tenants, s.rows, s.orders) && id in s.orders && MayEncode(s.orders[id].status)
    requires o == s.orders[id].(status := ENCODING_IN_PROGRESS, attempts := s.orders[id].attempts + 1)
    ensures IsHeld(s.orders[id].status) && LedgerMatchesOrders(s.tenants, s.rows, s.orders[id := o])
  {
    assert OrderMatches(s.tenants, s.rows, id, s.orders[id]);
    HeldMoveKeepsLedger(s.tenants, s.rows, s.orders, id, o);
  }

  lemma StartKeepsLedger(s: State, c: Call)
    requires LedgerMatchesOrders(s.tenants, s.rows, s.orders) && c.Start?
    ensures var s' := DoStart(s, c).state; LedgerMatchesOrders(s'.tenants, s'.rows, s'.orders)
  {
    var s' := DoStart(s, c).state;
    assert s'.tenants == s.tenants && s'.rows == s.rows;
    if s'.orders != s.orders {
      var id := c.order.value;
      var o := s.orders[id].(status := ENCODING_IN_PROGRESS, attempts := s.orders[id].attempts + 1);
      assert s'.orders == s.orders[id := o];
      StartedOrderKeepsLedger(s, id, o);
    }
  }

  lemma StartKeepsSessions(s: State, c: Call)
    requires SessionsMatchOrders(s.sessions, s.orders) && c.Start? && Orderly(s, c)
    ensures var s' := DoStart(s, c).state; SessionsMatchOrders(s'.sessions, s'.orders)
  {
    var s' := DoStart(s, c).state;
    if s' != s {
      if Real(c.order) {
        var id := c.order.value;
        IdleOrderKeepsSessions(s.sessions, s.orders, id, s'.orders[id]);
      }
      NewSessionKeepsSessions(s.sessions, s'.orders, c.sessionId, s'.sessions[c.sessionId]);
    }
  }

  lemma {:induction false} StartKeepsInv(s: State, c: Call)
    requires Inv(s) && c.Start? && Orderly(s, c)
    ensures Inv(DoStart(s, c).state)
  {
    StartKeepsLedger(s, c);
    StartKeepsSessions(s, c);
  }

  lemma ReleaseKeepsInv(s: State, c: Call)
    requires Inv(s) && c.Release? && Orderly(s, c)
    ensures Inv(DoRelease(s, c).state)
  {
    if DoRelease(s, c).state != s {
      var o := s.orders[c.orderId];
      assert OrderMatches(s.tenants, s.rows, c.orderId, o);
      EndingKeepsLedger(s.tenants, s.rows, s.orders, c.orderId, ReleaseRow(o, c.orderId), CANCELLED);
      IdleOrderKeepsSessions(s.sessions, s.orders, c.orderId, o.(status := CANCELLED));
    }
  }

  // ----- confirm -----

  /** The order an open session is encoding, once that session is closed, is held by no open session. */
  lemma ClosingFreesTheOrder(s: State, c: Call, id: string)
    requires Inv(s) && c.Confirm? && c.sessionId in s.sessions && OpenSessionOf(s.sessions[c.sessionId], id)
    ensures var closed := CloseSession(s, c).state;
            && LedgerMatchesOrders(closed.tenants, closed.rows, closed.orders)
            && SessionsMatchOrders(closed.sessions, closed.orders)
            && (forall x <- closed.sessions :: !OpenSessionOf(closed.sessions[x], id))
            && SessionFits(s.sessions[c.sessionId], s.orders, id)
            && OrderMatches(s.tenants, s.rows, id, s.orders[id])
  {
    ClosedSessionKeepsSessions(s.sessions, s.orders, c.sessionId, CloseSession(s, c).state.sessions[c.sessionId]);
  }

  /** While its order is being encoded, the reservation is there to be consumed. */
  lemma EncodingOrderCanBeConsumed(s: State, id: string)
    requires LedgerMatchesOrders(s.tenants, s.rows, s.orders) && id in s.orders
             && s.orders[id].status.ENCODING_IN_PROGRESS?
    ensures var o := s.orders[id];
            ConsumeReservation(s, o.tenantId, id, o.userId) == Result(s.(rows := s.rows + [ConsumeRow(o, id)]), None)
  {
    var o := s.orders[id];
    assert OrderMatches(s.tenants, s.rows, id, o);
    assert id in HeldIn(s.orders, o.tenantId, o.userId);
  }

  lemma FailedConfirmKeepsInv(s: State, c: Call)
    requires Inv(s) && c.Confirm? && Orderly(s, c) && ConfirmRefusal(s, c).None? && !c.success
    ensures Inv(DoConfirm(s, c).state)
  {
    var closed := CloseSession(s, c).state;
    var session := s.sessions[c.sessionId];
    var p2, p3, p4 := UpTo(s, c, 2), UpTo(s, c, 3), UpTo(s, c, 4);
    assert UpTo(s, c, 0) == Result(s, None);
    assert UpTo(s, c, 1) == Result(closed, None);
    assert p3.state == p2.state && p4.state == p2.state && DoConfirm(s, c).state == p2.state;
    if session.orderId.Some? {
      var id := session.orderId.value;
      ClosingFreesTheOrder(s, c, id);
      var o := s.orders[id].(status := ENCODING_FAILED);
      HeldMoveKeepsLedger(s.tenants, s.rows, s.orders, id, o);
      IdleOrderKeepsSessions(closed.sessions, s.orders, id, o);
    } else {
      ClosedSessionKeepsSessions(s.sessions, s.orders, c.sessionId, closed.sessions[c.sessionId]);
    }
  }

  /** The state a successful confirm of an order reaches, all five writes done. */
  function Confirmed(s: State, c: Call, id: string): State
    requires c.Confirm? && c.sessionId in s.sessions && id in s.orders && s.sessions[c.sessionId].assetId in s.assets
  {
    var upserted := UpsertDevice(CloseSession(s, c).state, c).state;
    var asset := s.sessions[c.sessionId].assetId;
    upserted.(assets := s.assets[asset := s.assets[asset].(deviceId := Some(Lower(c.ntagUID)))],
              rows := s.rows + [ConsumeRow(s.orders[id], id)],
              orders := s.orders[id := s.orders[id].(status := ACTIVATED)])
  }

  /** A confirmed write of an open session either finishes, or stops at the asset link without touching order or
      ledger. */
  lemma SuccessfulConfirmOutcome(s: State, c: Call, id: string)
    requires Inv(s) && c.Confirm? && ConfirmRefusal(s, c).None? && c.success
    requires OpenSessionOf(s.sessions[c.sessionId], id)
    ensures var upserted := UpsertDevice(CloseSession(s, c).state, c).state;
            var linked := LinkAsset(upserted, c, s.sessions[c.sessionId], id);
            if linked.error.Some? then DoConfirm(s, c) == Result(upserted, linked.error)
            else s.sessions[c.sessionId].assetId in s.assets && DoConfirm(s, c) == Result(Confirmed(s, c, id), None)
  {
    var upserted := UpsertDevice(CloseSession(s, c).state, c).state;
    var linked := LinkAsset(upserted, c, s.sessions[c.sessionId], id);
    assert UpTo(s, c, 0) == Result(s, None);
    assert UpTo(s, c, 1) == CloseSession(s, c);
    assert UpTo(s, c, 2) == Result(upserted, None);
    assert UpTo(s, c, 3) == if linked.error.Some? then Result(upserted, linked.error) else linked;
    ClosingFreesTheOrder(s, c, id);
    if linked.error.None? {
      EncodingOrderCanBeConsumed(linked.state, id);
      assert UpTo(s, c, 4) == Result(linked.state.(rows := s.rows + [ConsumeRow(s.orders[id], id)]), None);
    } else {
      assert UpTo(s, c, 4) == UpTo(s, c, 3);
    }
  }

  lemma SuccessfulConfirmKeepsInv(s: State, c: Call)
    requires Inv(s) && c.Confirm? && Orderly(s, c) && ConfirmRefusal(s, c).None? && c.success
    ensures Inv(DoConfirm(s, c).state)
  {
    var closed := CloseSession(s, c).state;
    if s.sessions[c.sessionId].orderId.Some? {
      var id := s.sessions[c.sessionId].orderId.value;
      ClosingFreesTheOrder(s, c, id);
      SuccessfulConfirmOutcome(s, c, id);
      EndingKeepsLedger(s.tenants, s.rows, s.orders, id, ConsumeRow(s.orders[id], id), ACTIVATED);
      IdleOrderKeepsSessions(closed.sessions, s.orders, id, s.orders[id].(status := ACTIVATED));
    } else {
      var p2, p3, p4 := UpTo(s, c, 2), UpTo(s, c, 3), UpTo(s, c, 4);
      assert UpTo(s, c, 0) == Result(s, None);
      assert UpTo(s, c, 1) == Result(closed, None);
      assert p2 == UpsertDevice(closed, c);
      assert p3 == p2 && p4 == p2 && DoConfirm(s, c) == p2;
      ClosedSessionKeepsSessions(s.sessions, s.orders, c.sessionId, closed.sessions[c.sessionId]);
    }
  }

  lemma CallKeepsInv(s: State, c: Call)
    requires Inv(s) && Orderly(s, c)
    ensures Inv(Step(s, c).state)
  {
    match c
    case Fund(_, _, _, _, _) => FundKeepsInv(s, c);
    case Reserve(_, _, _, _, _) => ReserveKeepsInv(s, c);
    case Start(_, _, _, _, _, _) => StartKeepsInv(s, c);
    case Release(_, _, _) => ReleaseKeepsInv(s, c);
    case Confirm(_, _, _, _, _) =>
      if ConfirmRefusal(s, c).Some? {
        RefusedConfirmChangesNothing(s, c, 5);
      } else if c.success {
        SuccessfulConfirmKeepsInv(s, c);
      } else {
        FailedConfirmKeepsInv(s, c);
      }
  }

  lemma {:induction false} RefusedConfirmChangesNothing(s: State, c: Call, n: nat)
    requires c.Confirm? && ConfirmRefusal(s, c).Some?
    ensures UpTo(s, c, n) == Result(s, ConfirmRefusal(s, c))
  {
    if n == 0 {
    } else {
      RefusedConfirmChangesNothing(s, c, n - 1);
    }
  }

  // ----- runs -----

  function Run(s: State, calls: seq<Call>): State {
    if calls == [] then s else Step(Run(s, calls[..|calls| - 1]), calls[|calls| - 1]).state
  }

  predicate OrderlyRun(s: State, calls: seq<Call>) {
    calls == [] || (OrderlyRun(s, calls[..|calls| - 1]) && Orderly(Run(s, calls[..|calls| - 1]), calls[|calls| - 1]))
  }

  function Empty(tenants: set<string>, assets: map<string, Asset>): State {
    State(tenants, [], map[], map[], map[], assets)
  }

  lemma {:induction false} RunKeepsInv(tenants: set<string>, assets: map<string, Asset>, calls: seq<Call>)
    requires OrderlyRun(Empty(tenants, assets), calls)
    ensures Inv(Run(Empty(tenants, assets), calls))
  {
    var s := Empty(tenants, assets);
    if calls == [] {
      forall t, u ensures HeldIn(s.orders, t, u) == {} {
      }
    } else {
      RunKeepsInv(tenants, assets, calls[..|calls| - 1]);
      CallKeepsInv(Run(s, calls[..|calls| - 1]), calls[|calls| - 1]);
    }
  }

  /** Orders agree with the ledger over every orderly serial run: a scope's reserved count is the number of its orders
      in REQUESTED, ENCODING_IN_PROGRESS or ENCODING_FAILED; an order has one RESERVED row, one CONSUMED row exactly
      when it is ACTIVATED, and one RELEASED row exactly when it is CANCELLED. */
  lemma OrdersAgreeWithLedger(tenants: set<string>, assets: map<string, Asset>, calls: seq<Call>, tenant: string,
                              user: Option<string>)
    requires OrderlyRun(Empty(tenants, assets), calls)
    ensures var s := Run(Empty(tenants, assets), calls);
            && Reserved(s.rows, tenant, user) == |HeldIn(s.orders, tenant, user)|
            && forall id :: id in s.orders ==>
                 && RowCount(s.rows, id, RESERVED) == 1
                 && RowCount(s.rows, id, CONSUMED) == (if s.orders[id].status.ACTIVATED? then 1 else 0)
                 && RowCount(s.rows, id, RELEASED) == (if s.orders[id].status.CANCELLED? then 1 else 0)
  {
    RunKeepsInv(tenants, assets, calls);
    var s := Run(Empty(tenants, assets), calls);
    forall id | id in s.orders
      ensures RowCount(s.rows, id, RESERVED) == 1
      ensures RowCount(s.rows, id, CONSUMED) == (if s.orders[id].status.ACTIVATED? then 1 else 0)
      ensures RowCount(s.rows, id, RELEASED) == (if s.orders[id].status.CANCELLED? then 1 else 0)
    {
      assert OrderMatches(s.tenants, s.rows, id, s.orders[id]);
    }
  }

  // ----- end states -----

  predicate IsEnded(status: OrderStatus) {
    status.ACTIVATED? || status.CANCELLED?
  }

  /** A confirm changes no order but the one its session is encoding. */
  lemma {:induction false} ConfirmTouchesOneOrder(s: State, c: Call, id: string, n: nat)
    requires c.Confirm? && c.sessionId in s.sessions && s.sessions[c.sessionId].orderId != Some(id) && id in s.orders
    ensures var s' := UpTo(s, c, n).state;
            && c.sessionId in s'.sessions && s'.sessions[c.sessionId].orderId == s.sessions[c.sessionId].orderId
            && id in s'.orders && s'.orders[id] == s.orders[id]
  {
    if n == 0 {
    } else {
      ConfirmTouchesOneOrder(s, c, id, n - 1);
    }
  }

  lemma ConfirmKeepsEndedOrder(s: State, c: Call, id: string)
    requires SessionsMatchOrders(s.sessions, s.orders) && c.Confirm? && Orderly(s, c) && id in s.orders
             && IsEnded(s.orders[id].status)
    ensures id in DoConfirm(s, c).state.orders && DoConfirm(s, c).state.orders[id] == s.orders[id]
  {
    if ConfirmRefusal(s, c).Some? {
      RefusedConfirmChangesNothing(s, c, 5);
    } else {
      assert s.sessions[c.sessionId].orderId == Some(id) ==> OpenSessionOf(s.sessions[c.sessionId], id);
      ConfirmTouchesOneOrder(s, c, id, 5);
    }
  }

  lemma ReleaseKeepsEndedOrder(s: State, c: Call, id: string)
    requires id in s.orders && OrderMatches(s.tenants, s.rows, id, s.orders[id]) && c.Release?
             && IsEnded(s.orders[id].status)
    ensures id in DoRelease(s, c).state.orders && DoRelease(s, c).state.orders[id] == s.orders[id]
  {
  }

  lemma CallKeepsEndedOrder(s: State, c: Call, id: string)
    requires SessionsMatchOrders(s.sessions, s.orders) && Orderly(s, c)
    requires id in s.orders && OrderMatches(s.tenants, s.rows, id, s.orders[id]) && IsEnded(s.orders[id].status)
    ensures id in Step(s, c).state.orders && Step(s, c).state.orders[id] == s.orders[id]
  {
    match c
    case Fund(_, _, _, _, _) => assert DoFund(s, c).state.orders == s.orders;
    case Reserve(_, _, _, _, _) => assert DoReserve(s, c).state.orders[id] == s.orders[id];
    case Start(_, _, _, _, _, _) => assert DoStart(s, c).state.orders[id] == s.orders[id];
    case Release(_, _, _) => ReleaseKeepsEndedOrder(s, c, id);
    case Confirm(_, _, _, _, _) => ConfirmKeepsEndedOrder(s, c, id);
  }

  /** ACTIVATED and CANCELLED are final: an orderly run never changes such an order again. */
  lemma {:induction false} EndedOrdersStayAsTheyAre(tenants: set<string>, assets: map<string, Asset>, calls: seq<Call>,
                                                    m: nat, id: string)
    requires OrderlyRun(Empty(tenants, assets), calls) && m <= |calls|
    requires var s := Run(Empty(tenants, assets), calls[..m]); id in s.orders && IsEnded(s.orders[id].status)
    ensures var s, s' := Run(Empty(tenants, assets), calls[..m]), Run(Empty(tenants, assets), calls);
            id in s'.orders && s'.orders[id] == s.orders[id]
  {
    if m == |calls| {
      assert calls[..m] == calls;
    } else {
      var before := calls[..|calls| - 1];
      assert before[..m] == calls[..m];
      EndedOrdersStayAsTheyAre(tenants, assets, before, m, id);
      RunKeepsInv(tenants, assets, before);
      var now := Run(Empty(tenants, assets), before);
      assert OrderMatches(now.tenants, now.rows, id, now.orders[id]);
      CallKeepsEndedOrder(Run(Empty(tenants, assets), before), calls[|calls| - 1], id);
    }
  }
}
