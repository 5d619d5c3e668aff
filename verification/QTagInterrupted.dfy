/** Orders and ledger over runs in which confirms are stopped between their writes and taken up again while the calls
    for other orders go on. */
module QTagInterrupted {
  import opened Common
  import opened LedgerTable
  import opened QTagOrders
  import opened QTagProofs

  /** The confirm of the order has reached the ledger but not yet the order. */
  predicate Recovering(rows: seq<Entry>, id: string, o: Order) {
    !o.status.ACTIVATED? && Find(rows, o.tenantId, ConsumeKey(id)).Some?
  }

  function EffectiveOrder(rows: seq<Entry>, id: string, o: Order): Order {
    if Recovering(rows, id, o) then o.(status := ACTIVATED) else o
  }

  /** The orders as the ledger already sees them. */
  function Effective(rows: seq<Entry>, orders: map<string, Order>): map<string, Order> {
    map id <- orders :: EffectiveOrder(rows, id, orders[id])
  }

  predicate NoOpenSession(sessions: map<string, Session>, id: string) {
    forall x <- sessions :: !OpenSessionOf(sessions[x], id)
  }

  /** A session belongs to an order of its own tenant and asset. */
  ghost predicate SessionsBelong(sessions: map<string, Session>, orders: map<string, Order>) {
    forall x, id :: x in sessions && sessions[x].orderId == Some(id) ==>
      id in orders && orders[id].tenantId == sessions[x].tenantId && orders[id].assetId == sessions[x].assetId
  }

  /** Recovering orders wait in ENCODING_IN_PROGRESS, with their sessions closed. */
  ghost predicate RecoveriesWait(rows: seq<Entry>, sessions: map<string, Session>, orders: map<string, Order>) {
    forall id <- orders :: Recovering(rows, id, orders[id]) ==>
        orders[id].status.ENCODING_IN_PROGRESS?
        && NoOpenSession(sessions, id)
  }

  ghost predicate Holds(tenants: set<string>, rows: seq<Entry>, sessions: map<string, Session>,
                        orders: map<string, Order>) {
    && LedgerMatchesOrders(tenants, rows, Effective(rows, orders))
    && SessionsMatchOrders(sessions, orders)
    && SessionsBelong(sessions, orders)
    && RecoveriesWait(rows, sessions, orders)
  }

  /** A call, or a confirm stopped after so many of its five writes. */
  datatype Move = Do(call: Call) | Stop(call: Call, writes: nat)

  function After(s: State, m: Move): State {
    match m
    case Do(c) => Step(s, c).state
    case Stop(c, writes) => if c.Confirm? then UpTo(s, c, Least(writes, 5)).state else s
  }

  /** A confirm is made for an open session, or repeated for an order whose encoding is unfinished: with the same
      verdict once the ledger has been reached. Nothing is released between the ledger write and the end of a
      confirm. */
  predicate Permitted(s: State, c: Call) {
    match c
    case Confirm(_, sessionId, success, _, _) =>
      sessionId in s.sessions ==>
        var session := s.sessions[sessionId];
        || session.status.IN_PROGRESS?
        || session.orderId.None?
        || (session.orderId.value in s.orders
            && var id, o := session.orderId.value, s.orders[session.orderId.value];
               o.status.ENCODING_IN_PROGRESS? && NoOpenSession(s.sessions, id)
                 && (Recovering(s.rows, id, o) ==> success))
    case Release(_, orderId, _) =>
      Orderly(s, c) && (orderId in s.orders ==> !Recovering(s.rows, orderId, s.orders[orderId]))
    case _ => Orderly(s, c)
  }

  // ----- rows and effective orders -----

  lemma ForeignRowKeepsEffective(rows: seq<Entry>, e: Entry, orders: map<string, Order>)
    requires forall id <- orders :: e.idempotencyKey != Some(ConsumeKey(id))
    ensures Effective(rows + [e], orders) == Effective(rows, orders)
  {
    forall id | id in orders ensures EffectiveOrder(rows + [e], id, orders[id])
        == EffectiveOrder(rows, id, orders[id]) {
      KeyAdded(rows, e, orders[id].tenantId, ConsumeKey(id));
    }
  }

  lemma OneOrderChanges(rows: seq<Entry>, orders: map<string, Order>, id: string, o: Order)
    ensures Effective(rows, orders[id := o]) == Effective(rows, orders)[id := EffectiveOrder(rows, id, o)]
  {
  }

  /** The consume row of an order makes it effectively ACTIVATED and no other. */
  lemma ConsumeRowActivates(rows: seq<Entry>, orders: map<string, Order>, id: string)
    requires id in orders && !orders[id].status.ACTIVATED?
    ensures Effective(rows + [ConsumeRow(orders[id], id)], orders)
            == Effective(rows, orders)[id := orders[id].(status := ACTIVATED)]
  {
    var e := ConsumeRow(orders[id], id);
    forall x | x in orders && x != id ensures EffectiveOrder(rows + [e], x, orders[x])
        == EffectiveOrder(rows, x, orders[x]) {
      DerivedKeys(x, id);
      KeyAdded(rows, e, orders[x].tenantId, ConsumeKey(x));
    }
    KeyAdded(rows, e, orders[id].tenantId, ConsumeKey(id));
  }

  lemma RowKeepsRecoveries(rows: seq<Entry>, e: Entry, sessions: map<string, Session>, orders: map<string, Order>)
    requires RecoveriesWait(rows, sessions, orders) && forall id <- orders :: e.idempotencyKey != Some(ConsumeKey(id))
    ensures RecoveriesWait(rows + [e], sessions, orders)
  {
    forall id | id in orders && Recovering(rows + [e], id, orders[id]) ensures Recovering(rows, id, orders[id]) {
      KeyAdded(rows, e, orders[id].tenantId, ConsumeKey(id));
    }
  }

  lemma ForeignKeyIsNoConsumeKey(key: Option<string>, id: string)
    requires key.Some? ==> Foreign(key.value)
    ensures key != Some(ConsumeKey(id))
  {
    DerivedKeys(id, id);
  }

  // ----- the calls -----

  lemma FundHolds(s: State, c: Call)
    requires Holds(s.tenants, s.rows, s.sessions, s.orders) && c.Fund? && Orderly(s, c)
    ensures var s' := DoFund(s, c).state; Holds(s'.tenants, s'.rows, s'.sessions, s'.orders)
  {
    if DoFund(s, c).state != s {
      var e := Entry(c.tenant, OrUndefined(c.user), if c.purchased then PURCHASED else GRANTED, c.quantity, c.quantity,
          0, c.key, None);
      assert DoFund(s, c).state == s.(rows := s.rows + [e]);
      forall id | id in s.orders ensures e.idempotencyKey != Some(ConsumeKey(id)) {
        ForeignKeyIsNoConsumeKey(c.key, id);
      }
      ForeignRowKeepsEffective(s.rows, e, s.orders);
      ForeignRowKeepsLedger(s.tenants, s.rows, Effective(s.rows, s.orders), e);
      RowKeepsRecoveries(s.rows, e, s.sessions, s.orders);
    }
  }

  lemma NewOrderLedger(tenants: set<string>, rows: seq<Entry>, orders: map<string, Order>, id: string, o: Order,
                       key: string)
    requires LedgerMatchesOrders(tenants, rows, Effective(rows, orders)) && id !in orders && Foreign(key)
    requires o.tenantId in tenants && o.userId == OrUndefined(o.userId) && o.status.REQUESTED?
    ensures LedgerMatchesOrders(tenants, rows + [ReserveRow(o, id, key)],
            Effective(rows + [ReserveRow(o, id, key)], orders[id := o]))
    ensures !Recovering(rows, id, o)
  {
    var e := ReserveRow(o, id, key);
    assert NothingBefore(rows, id);
    NewOrderKeepsLedger(tenants, rows, Effective(rows, orders), id, o, key);
    OneOrderChanges(rows, orders, id, o);
    forall x ensures e.idempotencyKey != Some(ConsumeKey(x)) {
      ForeignKeyIsNoConsumeKey(Some(key), x);
    }
    ForeignRowKeepsEffective(rows, e, orders[id := o]);
  }

  lemma {:induction false} NewOrderWaits(rows: seq<Entry>, sessions: map<string, Session>, orders: map<string, Order>,
                                         id: string, o: Order, e: Entry)
    requires RecoveriesWait(rows, sessions, orders) && SessionsBelong(sessions, orders) && id !in orders
    requires !Recovering(rows, id, o) && forall x :: e.idempotencyKey != Some(ConsumeKey(x))
    ensures RecoveriesWait(rows + [e], sessions, orders[id := o]) && SessionsBelong(sessions, orders[id := o])
  {
    assert RecoveriesWait(rows, sessions, orders[id := o]);
    RowKeepsRecoveries(rows, e, sessions, orders[id := o]);
  }

  lemma {:induction false} NewOrderHolds(tenants: set<string>, rows: seq<Entry>, sessions: map<string, Session>,
                                         orders: map<string, Order>, id: string, o: Order, key: string)
    requires Holds(tenants, rows, sessions, orders) && id !in orders && Foreign(key)
    requires o.tenantId in tenants && o.userId == OrUndefined(o.userId) && o.status.REQUESTED?
    ensures Holds(tenants, rows + [ReserveRow(o, id, key)], sessions, orders[id := o])
  {
    var e := ReserveRow(o, id, key);
    NewOrderLedger(tenants, rows, orders, id, o, key);
    forall x ensures e.idempotencyKey != Some(ConsumeKey(x)) {
      ForeignKeyIsNoConsumeKey(Some(key), x);
    }
    NewOrderWaits(rows, sessions, orders, id, o, e);
    IdleOrderKeepsSessions(sessions, orders, id, o);
  }

  lemma ReserveHolds(s: State, c: Call)
    requires Holds(s.tenants, s.rows, s.sessions, s.orders) && c.Reserve? && Orderly(s, c)
    ensures var s' := DoReserve(s, c).state; Holds(s'.tenants, s'.rows, s'.sessions, s'.orders)
  {
    if DoReserve(s, c).state != s {
      var order := Order(c.tenant, OrUndefined(c.user), c.assetId, REQUESTED, 0);
      var key := OrDefault(c.key, ReserveKey(c.tenant, c.assetId));
      assert DoReserve(s, c).state == s.(orders := s.orders[c.orderId := order],
          rows := s.rows + [ReserveRow(order, c.orderId, key)]);
      ReserveKeyIsForeign(c.tenant, c.assetId);
      NewOrderHolds(s.tenants, s.rows, s.sessions, s.orders, c.orderId, order, key);
    }
  }

  /** A held order that is not recovering moves to another held status. */
  lemma MoveHolds(tenants: set<string>, rows: seq<Entry>, sessions: map<string, Session>, orders: map<string, Order>,
                  id: string, o: Order)
    requires LedgerMatchesOrders(tenants, rows, Effective(rows, orders)) && RecoveriesWait(rows, sessions, orders)
    requires id in orders && IsHeld(orders[id].status) && IsHeld(o.status) && !Recovering(rows, id, orders[id])
    requires o.tenantId == orders[id].tenantId && o.userId == orders[id].userId && o.assetId == orders[id].assetId
    ensures LedgerMatchesOrders(tenants, rows, Effective(rows, orders[id := o]))
            && RecoveriesWait(rows, sessions, orders[id := o])
    ensures !Recovering(rows, id, o)
  {
    OneOrderChanges(rows, orders, id, o);
    HeldMoveKeepsLedger(tenants, rows, Effective(rows, orders), id, o);
  }

  lemma StartHolds(s: State, c: Call)
    requires Holds(s.tenants, s.rows, s.sessions, s.orders) && c.Start? && Orderly(s, c)
    ensures var s' := DoStart(s, c).state; Holds(s'.tenants, s'.rows, s'.sessions, s'.orders)
  {
    var s' := DoStart(s, c).state;
    StartKeepsSessions(s, c);
    if s' != s && Real(c.order) {
      var id := c.order.value;
      var o := s.orders[id].(status := ENCODING_IN_PROGRESS, attempts := s.orders[id].attempts + 1);
      EncodableIsHeld(s, id);
      MoveHolds(s.tenants, s.rows, s.sessions, s.orders, id, o);
      assert s'.orders == s.orders[id := o];
    }
    if s' != s {
      NewSessionWaits(s.rows, s.sessions, s'.orders, c.sessionId, s'.sessions[c.sessionId]);
      NewSessionBelongs(s.sessions, s.orders, s'.orders, c.sessionId, s'.sessions[c.sessionId]);
    }
  }

  lemma EncodableIsHeld(s: State, id: string)
    requires Holds(s.tenants, s.rows, s.sessions, s.orders) && id in s.orders && MayEncode(s.orders[id].status)
    ensures IsHeld(s.orders[id].status) && !Recovering(s.rows, id, s.orders[id])
  {
    var effective := Effective(s.rows, s.orders);
    assert OrderMatches(s.tenants, s.rows, id, effective[id]);
  }

  lemma {:induction false} NewSessionWaits(rows: seq<Entry>, sessions: map<string, Session>, orders: map<string, Order>,
                                           x: string, session: Session)
    requires RecoveriesWait(rows, sessions, orders) && x !in sessions
    requires session.orderId.Some? ==>
               session.orderId.value in orders && !Recovering(rows, session.orderId.value,
                 orders[session.orderId.value])
    ensures RecoveriesWait(rows, sessions[x := session], orders)
  {
    forall id | id in orders && Recovering(rows, id, orders[id]) ensures NoOpenSession(sessions[x := session], id) {
      assert NoOpenSession(sessions, id) && session.orderId != Some(id);
    }
  }

  lemma NewSessionBelongs(sessions: map<string, Session>, orders: map<string, Order>, orders': map<string, Order>,
                          x: string, session: Session)
    requires SessionsBelong(sessions, orders) && x !in sessions
    requires forall id <- orders ::
               id in orders' && orders'[id].tenantId == orders[id].tenantId && orders'[id].assetId == orders[id].assetId
    requires session.orderId.Some? ==>
               session.orderId.value in orders' && orders'[session.orderId.value].tenantId == session.tenantId
               && orders'[session.orderId.value].assetId == session.assetId
    ensures SessionsBelong(sessions[x := session], orders')
  {
  }

  lemma ReleaseHolds(s: State, c: Call)
    requires Holds(s.tenants, s.rows, s.sessions, s.orders) && c.Release? && Permitted(s, c)
    ensures var s' := DoRelease(s, c).state; Holds(s'.tenants, s'.rows, s'.sessions, s'.orders)
  {
    if DoRelease(s, c).state != s {
      var id, o := c.orderId, s.orders[c.orderId];
      assert OrderMatches(s.tenants, s.rows, id, Effective(s.rows, s.orders)[id]);
      assert DoRelease(s, c).state == s.(rows := s.rows + [ReleaseRow(o, id)],
          orders := s.orders[id := o.(status := CANCELLED)]);
      CancelledHolds(s.tenants, s.rows, s.sessions, s.orders, id);
    }
  }

  lemma CancelledLedger(tenants: set<string>, rows: seq<Entry>, orders: map<string, Order>, id: string)
    requires LedgerMatchesOrders(tenants, rows, Effective(rows, orders)) && id in orders && IsHeld(orders[id].status)
    requires !Recovering(rows, id, orders[id])
    ensures var rows', orders' := rows + [ReleaseRow(orders[id], id)], orders[id := orders[id].(status := CANCELLED)];
            LedgerMatchesOrders(tenants, rows', Effective(rows', orders')) && !Recovering(rows, id, orders'[id])
  {
    var e, o := ReleaseRow(orders[id], id), orders[id].(status := CANCELLED);
    EndingKeepsLedger(tenants, rows, Effective(rows, orders), id, e, CANCELLED);
    OneOrderChanges(rows, orders, id, o);
    forall x ensures e.idempotencyKey != Some(ConsumeKey(x)) {
      DerivedKeys(x, id);
    }
    ForeignRowKeepsEffective(rows, e, orders[id := o]);
  }

  lemma CancelledHolds(tenants: set<string>, rows: seq<Entry>, sessions: map<string, Session>,
                       orders: map<string, Order>, id: string)
    requires Holds(tenants, rows, sessions, orders) && id in orders && IsHeld(orders[id].status)
    requires !Recovering(rows, id, orders[id]) && NoOpenSession(sessions, id)
    ensures Holds(tenants, rows + [ReleaseRow(orders[id], id)], sessions,
            orders[id := orders[id].(status := CANCELLED)])
  {
    var e, o := ReleaseRow(orders[id], id), orders[id].(status := CANCELLED);
    CancelledLedger(tenants, rows, orders, id);
    forall x ensures e.idempotencyKey != Some(ConsumeKey(x)) {
      DerivedKeys(x, id);
    }
    RowKeepsRecoveries(rows, e, sessions, orders[id := o]);
    IdleOrderKeepsSessions(sessions, orders, id, o);
  }

  // ----- the writes of a confirm -----

  /** Closing a session, again or for the first time. */
  lemma CloseHolds(s: State, c: Call)
    requires Holds(s.tenants, s.rows, s.sessions, s.orders) && c.Confirm? && c.sessionId in s.sessions
    ensures var s' := CloseSession(s, c).state; Holds(s'.tenants, s'.rows, s'.sessions, s'.orders)
  {
    var s' := CloseSession(s, c).state;
    ClosedSessionKeepsSessions(s.sessions, s.orders, c.sessionId, s'.sessions[c.sessionId]);
    forall id | id in s.orders && NoOpenSession(s.sessions, id) ensures NoOpenSession(s'.sessions, id) {
    }
  }

  /** What a confirm of an order has in hand after its first write. */
  ghost predicate During(s: State, c: Call, id: string) {
    && Holds(s.tenants, s.rows, s.sessions, s.orders)
    && c.Confirm? && c.sessionId in s.sessions && s.sessions[c.sessionId].orderId == Some(id)
       && !s.sessions[c.sessionId].status.IN_PROGRESS?
    && id in s.orders && s.orders[id].tenantId == c.tenant
    && s.orders[id].status.ENCODING_IN_PROGRESS? && NoOpenSession(s.sessions, id)
    && (Recovering(s.rows, id, s.orders[id]) ==> c.success)
  }

  lemma FirstWriteLeads(s: State, c: Call, id: string)
    requires Holds(s.tenants, s.rows, s.sessions, s.orders) && c.Confirm? && Permitted(s, c)
             && ConfirmRefusal(s, c).None?
    requires s.sessions[c.sessionId].orderId == Some(id)
    ensures During(CloseSession(s, c).state, c, id)
  {
    CloseHolds(s, c);
    var session := s.sessions[c.sessionId];
    assert session.status.IN_PROGRESS? ==> OpenSessionOf(session, id);
    var s' := CloseSession(s, c).state;
    forall x | x in s'.sessions ensures !OpenSessionOf(s'.sessions[x], id) {
      assert x != c.sessionId ==> s'.sessions[x] == s.sessions[x];
    }
  }

  lemma FailHolds(s: State, c: Call, id: string)
    requires During(s, c, id) && !c.success
    ensures var s' := FailOrder(s, id).state; Holds(s'.tenants, s'.rows, s'.sessions, s'.orders)
  {
    var o := s.orders[id].(status := ENCODING_FAILED);
    MoveHolds(s.tenants, s.rows, s.sessions, s.orders, id, o);
    IdleOrderKeepsSessions(s.sessions, s.orders, id, o);
  }

  lemma ConsumeHolds(s: State, c: Call, id: string)
    requires During(s, c, id) && c.success
    ensures var r := ConsumeReservation(s, c.tenant, id, s.orders[id].userId);
            r.error.None? && During(r.state, c, id) && Recovering(r.state.rows, id, r.state.orders[id])
  {
    var o := s.orders[id];
    if !Recovering(s.rows, id, o) {
      var effective := Effective(s.rows, s.orders);
      assert OrderMatches(s.tenants, s.rows, id, effective[id]);
      assert id in HeldIn(effective, o.tenantId, o.userId);
      var rows := s.rows + [ConsumeRow(o, id)];
      assert ConsumeReservation(s, c.tenant, id, o.userId) == Result(s.(rows := rows), None);
      KeyAdded(s.rows, ConsumeRow(o, id), o.tenantId, ConsumeKey(id));
      ConsumedHolds(s.tenants, s.rows, s.sessions, s.orders, id);
    }
  }

  lemma ConsumedHolds(tenants: set<string>, rows: seq<Entry>, sessions: map<string, Session>,
                      orders: map<string, Order>, id: string)
    requires Holds(tenants, rows, sessions, orders) && id in orders && orders[id].status.ENCODING_IN_PROGRESS?
    requires !Recovering(rows, id, orders[id]) && NoOpenSession(sessions, id)
    ensures Holds(tenants, rows + [ConsumeRow(orders[id], id)], sessions, orders)
  {
    var e := ConsumeRow(orders[id], id);
    EndingKeepsLedger(tenants, rows, Effective(rows, orders), id, e, ACTIVATED);
    ConsumeRowActivates(rows, orders, id);
    forall x | x in orders && x != id && Recovering(rows + [e], x, orders[x]) ensures Recovering(rows, x, orders[x]) {
      DerivedKeys(x, id);
      KeyAdded(rows, e, orders[x].tenantId, ConsumeKey(x));
    }
  }

  lemma ActivateHolds(s: State, c: Call, id: string)
    requires During(s, c, id) && Recovering(s.rows, id, s.orders[id])
    ensures var s' := ActivateOrder(s, id).state; Holds(s'.tenants, s'.rows, s'.sessions, s'.orders)
  {
    var o := s.orders[id].(status := ACTIVATED);
    OneOrderChanges(s.rows, s.orders, id, o);
    assert Effective(s.rows, s.orders[id := o]) == Effective(s.rows, s.orders);
    IdleOrderKeepsSessions(s.sessions, s.orders, id, o);
  }

  /** Where a confirm of an order stands after n writes. */
  ghost predicate Underway(s: State, c: Call, id: string, n: nat) {
    && Holds(s.tenants, s.rows, s.sessions, s.orders)
    && c.Confirm? && c.sessionId in s.sessions && s.sessions[c.sessionId].orderId == Some(id)
    && (n == 1 || (c.success && n <= 4) ==> During(s, c, id))
    && (c.success && n == 4 ==> Recovering(s.rows, id, s.orders[id]))
  }

  /** The device and the asset link concern neither orders nor ledger. */
  lemma QuietWrite(s: State, c: Call, id: string, n: nat)
    requires c.Confirm? && c.success && 2 <= n <= 3 && c.sessionId in s.sessions
             && s.sessions[c.sessionId].orderId == Some(id)
    ensures var s' := Write(s, c, n).state;
            s'.tenants == s.tenants && s'.rows == s.rows && s'.sessions == s.sessions && s'.orders == s.orders
  {
  }

  lemma WriteHolds(s: State, c: Call, id: string, n: nat)
    requires c.Confirm? && 1 <= n <= 4 && Underway(s, c, id, n)
    ensures var r := Write(s, c, n + 1);
            && Holds(r.state.tenants, r.state.rows, r.state.sessions, r.state.orders)
            && (r.error.None? ==> Underway(r.state, c, id, n + 1))
  {
    if !c.success {
      if n == 1 {
        FailHolds(s, c, id);
      }
    } else if n <= 2 {
      QuietWrite(s, c, id, n + 1);
    } else if n == 3 {
      ConsumeHolds(s, c, id);
    } else if n == 4 {
      ActivateHolds(s, c, id);
    }
  }

  lemma {:induction false} OrderConfirmHolds(s: State, c: Call, id: string, n: nat)
    requires Holds(s.tenants, s.rows, s.sessions, s.orders) && c.Confirm? && Permitted(s, c)
             && ConfirmRefusal(s, c).None?
    requires s.sessions[c.sessionId].orderId == Some(id) && 1 <= n <= 5
    ensures var r := UpTo(s, c, n);
            && Holds(r.state.tenants, r.state.rows, r.state.sessions, r.state.orders)
            && (r.error.None? ==> Underway(r.state, c, id, n))
  {
    if n == 1 {
      assert UpTo(s, c, 0) == Result(s, None);
      FirstWriteLeads(s, c, id);
    } else {
      OrderConfirmHolds(s, c, id, n - 1);
      if UpTo(s, c, n - 1).error.None? {
        WriteHolds(UpTo(s, c, n - 1).state, c, id, n - 1);
      }
    }
  }

  lemma {:induction false} PlainConfirmHolds(s: State, c: Call, n: nat)
    requires Holds(s.tenants, s.rows, s.sessions, s.orders) && c.Confirm? && ConfirmRefusal(s, c).None?
             && s.sessions[c.sessionId].orderId.None?
    ensures var s' := UpTo(s, c, n).state;
            && Holds(s'.tenants, s'.rows, s'.sessions, s'.orders)
            && c.sessionId in s'.sessions && s'.sessions[c.sessionId].orderId.None? && UpTo(s, c, n).error.None?
  {
    if n == 0 {
    } else {
      PlainConfirmHolds(s, c, n - 1);
      if n == 1 {
        CloseHolds(UpTo(s, c, 0).state, c);
      }
    }
  }

  lemma ConfirmHolds(s: State, c: Call, n: nat)
    requires Holds(s.tenants, s.rows, s.sessions, s.orders) && c.Confirm? && Permitted(s, c) && n <= 5
    ensures var s' := UpTo(s, c, n).state; Holds(s'.tenants, s'.rows, s'.sessions, s'.orders)
  {
    if ConfirmRefusal(s, c).Some? {
      RefusedConfirmChangesNothing(s, c, n);
    } else if n > 0 {
      if s.sessions[c.sessionId].orderId.None? {
        PlainConfirmHolds(s, c, n);
      } else {
        OrderConfirmHolds(s, c, s.sessions[c.sessionId].orderId.value, n);
      }
    }
  }

  // ----- runs -----

  lemma MoveKeepsHolds(s: State, m: Move)
    requires Holds(s.tenants, s.rows, s.sessions, s.orders) && Permitted(s, m.call)
    ensures var s' := After(s, m); Holds(s'.tenants, s'.rows, s'.sessions, s'.orders)
  {
    var c := m.call;
    if c.Confirm? {
      ConfirmHolds(s, c, if m.Stop? then Least(m.writes, 5) else 5);
    } else if m.Do? {
      match c
      case Fund(_, _, _, _, _) => FundHolds(s, c);
      case Reserve(_, _, _, _, _) => ReserveHolds(s, c);
      case Start(_, _, _, _, _, _) => StartHolds(s, c);
      case Release(_, _, _) => ReleaseHolds(s, c);
    }
  }

  function RunOf(s: State, moves: seq<Move>): State {
    if moves == [] then s else After(RunOf(s, moves[..|moves| - 1]), moves[|moves| - 1])
  }

  predicate PermittedRun(s: State, moves: seq<Move>) {
    moves == [] || (PermittedRun(s, moves[..|moves| - 1]) && Permitted(RunOf(s, moves[..|moves| - 1]),
      moves[|moves| - 1].call))
  }

  lemma {:induction false} RunKeepsHolds(tenants: set<string>, assets: map<string, Asset>, moves: seq<Move>)
    requires PermittedRun(Empty(tenants, assets), moves)
    ensures var s := RunOf(Empty(tenants, assets), moves); Holds(s.tenants, s.rows, s.sessions, s.orders)
  {
    var s := Empty(tenants, assets);
    if moves == [] {
      assert Effective(s.rows, s.orders) == s.orders;
      forall t, u ensures HeldIn(s.orders, t, u) == {} {
      }
    } else {
      RunKeepsHolds(tenants, assets, moves[..|moves| - 1]);
      MoveKeepsHolds(RunOf(s, moves[..|moves| - 1]), moves[|moves| - 1]);
    }
  }

  /** Over every run that mixes calls, confirms stopped after any of their writes, and their repetitions: a scope's
      reserved count is the number of its held orders whose confirm has not reached the ledger; an order recovering from
      a stopped confirm waits in ENCODING_IN_PROGRESS with its one CONSUMED row, and every other order agrees with its
      rows. */
  lemma InterruptedRunsAgree(tenants: set<string>, assets: map<string, Asset>, moves: seq<Move>, tenant: string,
                             user: Option<string>)
    requires PermittedRun(Empty(tenants, assets), moves)
    ensures var s := RunOf(Empty(tenants, assets), moves);
            && Reserved(s.rows, tenant, user) == |HeldIn(Effective(s.rows, s.orders), tenant, user)|
            && forall id :: id in s.orders ==>
                 && RowCount(s.rows, id, RESERVED) == 1
                 && RowCount(s.rows, id, RELEASED) == (if s.orders[id].status.CANCELLED? then 1 else 0)
                 && (if Recovering(s.rows, id, s.orders[id]) then s.orders[id].status.ENCODING_IN_PROGRESS?
                     && RowCount(s.rows, id, CONSUMED) == 1
                     else RowCount(s.rows, id, CONSUMED) == if s.orders[id].status.ACTIVATED? then 1 else 0)
  {
    RunKeepsHolds(tenants, assets, moves);
    var s := RunOf(Empty(tenants, assets), moves);
    forall id | id in s.orders
      ensures RowCount(s.rows, id, RESERVED) == 1
      ensures RowCount(s.rows, id, RELEASED) == (if s.orders[id].status.CANCELLED? then 1 else 0)
      ensures if Recovering(s.rows, id, s.orders[id]) then s.orders[id].status.ENCODING_IN_PROGRESS?
              && RowCount(s.rows, id, CONSUMED) == 1
              else RowCount(s.rows, id, CONSUMED) == if s.orders[id].status.ACTIVATED? then 1 else 0
    {
      assert OrderMatches(s.tenants, s.rows, id, Effective(s.rows, s.orders)[id]);
    }
  }

  /** Once no confirm is left half done, orders and ledger agree in full. */
  lemma FinishedRunsAgree(tenants: set<string>, assets: map<string, Asset>, moves: seq<Move>)
    requires PermittedRun(Empty(tenants, assets), moves)
    requires var s := RunOf(Empty(tenants, assets), moves); forall id <- s.orders ::
             !Recovering(s.rows, id, s.orders[id])
    ensures Inv(RunOf(Empty(tenants, assets), moves))
  {
    RunKeepsHolds(tenants, assets, moves);
    var s := RunOf(Empty(tenants, assets), moves);
    assert Effective(s.rows, s.orders) == s.orders;
  }
}
