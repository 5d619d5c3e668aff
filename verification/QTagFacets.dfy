/** The QTAG and commissioning facets themselves, each method proved to take the step that `QTagOrders` describes. */
module QTagFacets {
  import opened Common
  import opened LedgerTable
  import opened QTagOrders

  class Database {
    const ledger: Table
    var orders: map<string, Order>
    var sessions: map<string, Session>
    var devices: map<string, Device>
    var assets: map<string, Asset>

    constructor (ledger: Table, assets: map<string, Asset>)
      ensures this.ledger == ledger && this.assets == assets
      ensures orders == map[] && sessions == map[] && devices == map[]
    {
      this.ledger := ledger;
      this.assets := assets;
      orders, sessions, devices := map[], map[], map[];
    }

    ghost function Tables(): State
      reads this, ledger
    {
      State(ledger.tenants, ledger.rows, orders, sessions, devices, assets)
    }

    /** `createLedgerEntry`. */
    method CreateLedgerEntry(tenant: string, user: Option<string>, kind: EntryType, quantity: int, availableDelta: int,
                             reservedDelta: int, key: Option<string>, orderId: Option<string>)
      returns (error: Option<Error>)
      modifies ledger
      ensures ledger.tenants == old(ledger.tenants)
      ensures var r := Append(old(Tables()), Entry(tenant, OrUndefined(user), kind, quantity, availableDelta,
              reservedDelta, key, orderId));
              Tables() == r.state && error == r.error
    {
      var stored := ledger.Create(Entry(tenant, if Real(user) then user else None, kind, quantity, availableDelta,
          reservedDelta, key, orderId));
      match stored {
        case Ok(_) => error := None;
        case Err(e) => error := Some(DATABASE(e));
      }
    }

    method GrantQTags(tenant: string, user: Option<string>, quantity: int, key: Option<string>)
      returns (error: Option<Error>)
      modifies ledger
      ensures var r := Step(old(Tables()), Fund(tenant, user, quantity, false, key));
              Tables() == r.state
              && error == r.error
    {
      if quantity <= 0 {
        return Some(INVALID_QUANTITY);
      }
      if tenant !in ledger.tenants {
        return Some(TENANT_NOT_FOUND);
      }
      if key.Some? && key.value != "" {
        var existing := ledger.FindIdempotentEntry(tenant, key);
        if existing.Some? {
          return None;
        }
      }
      error := CreateLedgerEntry(tenant, user, GRANTED, quantity, quantity, 0, key, None);
    }

    method PurchaseConfirmed(tenant: string, user: Option<string>, quantity: int, key: string)
      returns (error: Option<Error>)
      modifies ledger
      ensures var r := Step(old(Tables()), Fund(tenant, user, quantity, true, Some(key)));
              Tables() == r.state
              && error == r.error
    {
      if quantity <= 0 {
        return Some(INVALID_QUANTITY);
      }
      if Blank(key) {
        return Some(IDEMPOTENCY_KEY_REQUIRED);
      }
      var existing := ledger.FindIdempotentEntry(tenant, Some(key));
      if existing.Some? {
        return None;
      }
      error := CreateLedgerEntry(tenant, user, PURCHASED, quantity, quantity, 0, Some(key), None);
    }

    /** `orderId` is the id the database would generate. */
    method ReserveForAsset(tenant: string, user: Option<string>, assetId: string, key: Option<string>, orderId: string)
      returns (error: Option<Error>, deduped: bool)
      modifies this, ledger
      ensures var r := Step(old(Tables()), Reserve(tenant, user, assetId, key, orderId));
              Tables() == r.state
              && error == r.error
      ensures deduped <==> error.None? && Tables() == old(Tables())
    {
      deduped := false;
      if tenant !in ledger.tenants {
        return Some(TENANT_NOT_FOUND), false;
      }
      if assetId !in assets || assets[assetId].tenantId != tenant {
        return Some(ASSET_NOT_FOUND), false;
      }
      if assets[assetId].deviceId.Some? && assets[assetId].deviceId.value != "" {
        return Some(ASSET_ALREADY_TAGGED), false;
      }
      var idempotencyKey := if key.Some? && key.value != "" then key.value else ReserveKey(tenant, assetId);
      if idempotencyKey != "" {
        var existingLedger := ledger.FindIdempotentEntry(tenant, Some(idempotencyKey));
        if existingLedger.Some? {
          return None, true;
        }
      }
      if exists o :: o in orders && orders[o].tenantId == tenant && orders[o].assetId == assetId
                     && !orders[o].status.CANCELLED? && !orders[o].status.EXPIRED? {
        return Some(QTAG_ALREADY_RESERVED), false;
      }
      var balance := ledger.GetBalanceProjection(tenant, user);
      if balance.available < 1 {
        return Some(INSUFFICIENT_QTAGS), false;
      }
      orders := orders[orderId := Order(tenant, if Real(user) then user else None, assetId, REQUESTED, 0)];
      error := CreateLedgerEntry(tenant, user, RESERVED, 1, -1, 1, Some(idempotencyKey), Some(orderId));
    }

    method ReleaseReservation(tenant: string, orderId: string, key: Option<string>)
      returns (error: Option<Error>, deduped: bool)
      modifies this, ledger
      ensures var r := Step(old(Tables()), Release(tenant, orderId, key)); Tables() == r.state && error == r.error
      ensures deduped <==> error.None? && Tables() == old(Tables())
    {
      var idempotencyKey := if key.Some? && key.value != "" then key.value else ReleaseKey(orderId);
      deduped := false;
      if tenant !in ledger.tenants {
        return Some(TENANT_NOT_FOUND), false;
      }
      if orderId !in orders || orders[orderId].tenantId != tenant {
        return Some(FULFILLMENT_ORDER_NOT_FOUND), false;
      }
      var order := orders[orderId];
      if order.status.ACTIVATED? {
        return Some(QTAG_ALREADY_ACTIVATED), false;
      }
      var existing := ledger.FindIdempotentEntry(tenant, Some(idempotencyKey));
      if existing.Some? {
        return None, true;
      }
      var balance := ledger.GetBalanceProjection(tenant, order.userId);
      if balance.reserved < 1 {
        return Some(INSUFFICIENT_RESERVED_QTAGS), false;
      }
      error := CreateLedgerEntry(tenant, order.userId, RELEASED, 1, 1, -1, Some(idempotencyKey), Some(orderId));
      orders := orders[orderId := order.(status := CANCELLED)];
    }

    /** `consumeReservation`. */
    method ConsumeReservation(tenant: string, orderId: string, user: Option<string>) returns (error: Option<Error>)
      modifies ledger
      ensures var r := QTagOrders.ConsumeReservation(old(Tables()), tenant, orderId, user);
              Tables() == r.state
              && error == r.error
    {
      var key := ConsumeKey(orderId);
      var existing := ledger.FindIdempotentEntry(tenant, Some(key));
      if existing.Some? {
        return None;
      }
      var balance := ledger.GetBalanceProjection(tenant, user);
      if balance.reserved < 1 {
        return Some(INSUFFICIENT_RESERVED_QTAGS);
      }
      error := CreateLedgerEntry(tenant, user, CONSUMED, 1, 0, -1, Some(key), Some(orderId));
    }

    /** `CommissioningFacet.start`; `keys` are the wrapped key ids it generates, `sessionId` the database's. */
    method Start(tenant: string, assetId: string, ntagUID: string, order: Option<string>, sessionId: string, keys: Keys)
      returns (error: Option<Error>)
      modifies this
      ensures var r := Step(old(Tables()), Call.Start(tenant, assetId, ntagUID, order, sessionId, keys));
              Tables()
              == r.state && error == r.error
    {
      if !IsUid(ntagUID) {
        return Some(INVALID_UID);
      }
      var uid := Lower(ntagUID);
      var attemptNo := 1;
      if order.Some? && order.value != "" {
        if order.value !in orders || orders[order.value].tenantId != tenant || orders[order.value].assetId != assetId {
          return Some(FULFILLMENT_ORDER_NOT_FOUND);
        }
        if orders[order.value].status !in {REQUESTED, READY_FOR_ENCODING, ENCODING_FAILED} {
          return Some(ORDER_NOT_READY);
        }
        attemptNo := orders[order.value].attempts + 1;
      }
      sessions := sessions[sessionId := Session(tenant, assetId, OrUndefined(order), uid, keys, attemptNo,
        IN_PROGRESS)];
      if order.Some? && order.value != "" {
        var o := orders[order.value];
        orders := orders[order.value := o.(status := ENCODING_IN_PROGRESS, attempts := o.attempts + 1)];
      }
      return None;
    }

    /** `CommissioningFacet.confirm`. */
    method Confirm(tenant: string, sessionId: string, success: bool, bytesWritten: int, ntagUID: string)
      returns (error: Option<Error>)
      modifies this, ledger
      ensures var r := Step(old(Tables()), Call.Confirm(tenant, sessionId, success, bytesWritten, ntagUID));
              Tables()
              == r.state && error == r.error
    {
      ghost var s, c := Tables(), Call.Confirm(tenant, sessionId, success, bytesWritten, ntagUID);
      if sessionId !in sessions || sessions[sessionId].tenantId != tenant {
        StopsAt(s, c, 0);
        return Some(SESSION_NOT_FOUND);
      }
      var session := sessions[sessionId];
      var uid := Lower(ntagUID);
      if session.ntagUID != "" && session.ntagUID != uid {
        StopsAt(s, c, 0);
        return Some(UID_MISMATCH);
      }
      if success && bytesWritten < 144 {
        StopsAt(s, c, 0);
        return Some(INCOMPLETE_WRITE);
      }
      sessions := sessions[sessionId := session.(status := if success then COMPLETED else FAILED)];
      assert UpTo(s, c, 0) == QTagOrders.Result(s, None);
      assert UpTo(s, c, 1) == QTagOrders.Result(Tables(), None);
      if success {
        var device := if uid in devices then devices[uid].(keys := session.keys, isActive := true)
            else Device(tenant, session.keys, true);
        devices := devices[uid := device];
        assert UpTo(s, c, 2) == QTagOrders.Result(Tables(), None);
        if session.orderId.Some? {
          error := ActivateAsset(tenant, session, sessionId, uid, session.orderId.value, s, c);
        } else {
          NoFurtherWrites(s, c);
          error := None;
        }
      } else {
        error := None;
        if session.orderId.Some? {
          var id := session.orderId.value;
          if id !in orders {
            error := Some(NO_SUCH_RECORD);
          } else {
            orders := orders[id := orders[id].(status := ENCODING_FAILED)];
          }
        }
        assert UpTo(s, c, 2) == QTagOrders.Result(Tables(), error);
        NoFurtherWrites(s, c);
      }
    }

    /** The part of a successful confirm that belongs to the order: asset link, ledger, order. */
    method ActivateAsset(tenant: string, session: Session, sessionId: string, uid: string, id: string, ghost s: State,
                         ghost c: Call)
      returns (error: Option<Error>)
      requires c.Confirm? && c.success && c.tenant == tenant && c.sessionId == sessionId && uid == Lower(c.ntagUID)
      requires sessionId in sessions && sessions[sessionId].orderId == Some(id)
               && session == sessions[sessionId].(status := session.status)
      requires UpTo(s, c, 2) == QTagOrders.Result(Tables(), None)
      modifies this, ledger
      ensures var r := DoConfirm(s, c); Tables() == r.state && error == r.error
    {
      if id !in orders || orders[id].tenantId != tenant || orders[id].assetId != session.assetId {
        StopsAt(s, c, 3);
        return Some(FULFILLMENT_ORDER_NOT_FOUND);
      }
      var user := orders[id].userId;
      if session.assetId !in assets {
        StopsAt(s, c, 3);
        return Some(NO_SUCH_RECORD);
      }
      if exists a :: a in assets && a != session.assetId && assets[a].deviceId == Some(uid) {
        StopsAt(s, c, 3);
        return Some(DEVICE_LINKED_ELSEWHERE);
      }
      assets := assets[session.assetId := assets[session.assetId].(deviceId := Some(uid))];
      assert UpTo(s, c, 3) == QTagOrders.Result(Tables(), None);
      error := ConsumeReservation(tenant, id, user);
      assert UpTo(s, c, 4) == QTagOrders.Result(Tables(), error);
      if error.Some? {
        StopsAt(s, c, 4);
        return;
      }
      orders := orders[id := orders[id].(status := ACTIVATED)];
    }
  }

  /** Once a write has thrown, no later one happens. */
  lemma {:induction false} StopsAt(s: State, c: Call, n: nat)
    requires c.Confirm? && n <= 5 && UpTo(s, c, n).error.Some?
    ensures DoConfirm(s, c) == UpTo(s, c, n)
    decreases 5 - n
  {
    if n < 5 {
      assert UpTo(s, c, n + 1) == UpTo(s, c, n);
      StopsAt(s, c, n + 1);
    }
  }

  /** A failed confirm, or one of a session without an order, has at most two writes. */
  lemma NoFurtherWrites(s: State, c: Call)
    requires c.Confirm? && c.sessionId in s.sessions && (!c.success || s.sessions[c.sessionId].orderId.None?)
    ensures DoConfirm(s, c) == UpTo(s, c, 2)
  {
    var p1, p2, p3, p4 := UpTo(s, c, 1), UpTo(s, c, 2), UpTo(s, c, 3), UpTo(s, c, 4);
    assert UpTo(s, c, 0).state == s;
    assert c.sessionId in p1.state.sessions && p1.state.sessions[c.sessionId].orderId
        == s.sessions[c.sessionId].orderId;
    assert p2.error.None? ==>
        c.sessionId in p2.state.sessions
        && p2.state.sessions[c.sessionId].orderId == s.sessions[c.sessionId].orderId;
    assert p3 == p2;
    assert p4 == p3;
  }
}
