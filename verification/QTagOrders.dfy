/** QTAG fulfillment orders, encoding sessions and the QTAG ledger that has to stay in step with them. */
module QTagOrders {
  import opened Common
  import opened LedgerTable

  datatype OrderStatus = REQUESTED | READY_FOR_ENCODING | ENCODING_IN_PROGRESS | ENCODING_FAILED | ACTIVATED
    | CANCELLED | EXPIRED

  datatype SessionStatus = IN_PROGRESS | COMPLETED | FAILED

  datatype Asset = Asset(tenantId: string, deviceId: Option<string>)

  datatype Order = Order(tenantId: string, userId: Option<string>, assetId: string, status: OrderStatus, attempts: nat)

  datatype Keys = Keys(mac: string, enc: string)

  datatype Session = Session(tenantId: string, assetId: string, orderId: Option<string>, ntagUID: string, keys: Keys,
                             attemptNo: nat, status: SessionStatus)

  /** Devices are identified by their uid. */
  datatype Device = Device(tenantId: string, keys: Keys, isActive: bool)

  datatype Error =
    | INVALID_QUANTITY | IDEMPOTENCY_KEY_REQUIRED | TENANT_NOT_FOUND | ASSET_NOT_FOUND | ASSET_ALREADY_TAGGED
    | QTAG_ALREADY_RESERVED | INSUFFICIENT_QTAGS | INSUFFICIENT_RESERVED_QTAGS | FULFILLMENT_ORDER_NOT_FOUND
    | QTAG_ALREADY_ACTIVATED | INVALID_UID | ORDER_NOT_READY | SESSION_NOT_FOUND | UID_MISMATCH | INCOMPLETE_WRITE
    | NO_SUCH_RECORD | DEVICE_LINKED_ELSEWHERE | DATABASE(error: DbError)

  datatype State = State(
    tenants: set<string>,
    rows: seq<Entry>,
    orders: map<string, Order>,
    sessions: map<string, Session>,
    devices: map<string, Device>,
    assets: map<string, Asset>
  )

  /** Where a call leaves the tables, and whether it threw on the way. */
  datatype Result = Result(state: State, error: Option<Error>)

  datatype Call =
    | Fund(tenant: string, user: Option<string>, quantity: int, purchased: bool, key: Option<string>)
    | Reserve(tenant: string, user: Option<string>, assetId: string, key: Option<string>, orderId: string)
    | Start(tenant: string, assetId: string, ntagUID: string, order: Option<string>, sessionId: string, keys: Keys)
    | Confirm(tenant: string, sessionId: string, success: bool, bytesWritten: int, ntagUID: string)
    | Release(tenant: string, orderId: string, key: Option<string>)

  function ReserveKey(tenant: string, assetId: string): string {
    "qtag-reserve:" + tenant + ":" + assetId
  }

  function ConsumeKey(orderId: string): string {
    "qtag-consume:" + orderId
  }

  function ReleaseKey(orderId: string): string {
    "qtag-release:" + orderId
  }

  /** `key || default`. */
  function OrDefault(key: Option<string>, default: string): string {
    if key.Some? && key.value != "" then key.value else default
  }

  predicate IsUid(s: string) {
    |s| == 14 && forall i :: 0 <= i < 14 ==> '0' <= s[i] <= '9' || 'A' <= s[i] <= 'F' || 'a' <= s[i] <= 'f'
  }

  // ----- ledger rows -----

  function ReserveRow(o: Order, orderId: string, key: string): Entry {
    Entry(o.tenantId, o.userId, RESERVED, 1, -1, 1, Some(key), Some(orderId))
  }

  function ConsumeRow(o: Order, orderId: string): Entry {
    Entry(o.tenantId, OrUndefined(o.userId), CONSUMED, 1, 0, -1, Some(ConsumeKey(orderId)), Some(orderId))
  }

  function ReleaseRow(o: Order, orderId: string): Entry {
    Entry(o.tenantId, OrUndefined(o.userId), RELEASED, 1, 1, -1, Some(ReleaseKey(orderId)), Some(orderId))
  }

  function Refused(s: State, e: Error): Result {
    Result(s, Some(e))
  }

  function Append(s: State, e: Entry): Result {
    match Insertable(s.tenants, s.rows, e)
    case Some(err) => Refused(s, DATABASE(err))
    case None => Result(s.(rows := s.rows + [e]), None)
  }

  // ----- the calls -----

  function DoFund(s: State, c: Call): Result
    requires c.Fund?
  {
    var kind := if c.purchased then PURCHASED else GRANTED;
    if c.quantity <= 0 then Refused(s, INVALID_QUANTITY)
    else if c.purchased && (c.key.None? || Blank(c.key.value)) then Refused(s, IDEMPOTENCY_KEY_REQUIRED)
    else if !c.purchased && c.tenant !in s.tenants then Refused(s, TENANT_NOT_FOUND)
    else if c.key.Some? && c.key.value != "" && Find(s.rows, c.tenant, c.key.value).Some? then Result(s, None)
    else Append(s, Entry(c.tenant, OrUndefined(c.user), kind, c.quantity, c.quantity, 0, c.key, None))
  }

  predicate ActiveOrder(s: State, tenant: string, assetId: string) {
    exists o :: o in s.orders && s.orders[o].tenantId == tenant && s.orders[o].assetId == assetId
                && !s.orders[o].status.CANCELLED? && !s.orders[o].status.EXPIRED?
  }

  function DoReserve(s: State, c: Call): Result
    requires c.Reserve?
  {
    var key := OrDefault(c.key, ReserveKey(c.tenant, c.assetId));
    if c.tenant !in s.tenants then Refused(s, TENANT_NOT_FOUND)
    else if c.assetId !in s.assets || s.assets[c.assetId].tenantId != c.tenant then Refused(s, ASSET_NOT_FOUND)
    else if Real(s.assets[c.assetId].deviceId) then Refused(s, ASSET_ALREADY_TAGGED)
    else if Find(s.rows, c.tenant, key).Some? then Result(s, None)
    else if ActiveOrder(s, c.tenant, c.assetId) then Refused(s, QTAG_ALREADY_RESERVED)
    else if Available(s.rows, c.tenant, c.user) < 1 then Refused(s, INSUFFICIENT_QTAGS)
    else
      var order := Order(c.tenant, OrUndefined(c.user), c.assetId, REQUESTED, 0);
      Result(s.(orders := s.orders[c.orderId := order], rows := s.rows + [ReserveRow(order, c.orderId, key)]), None)
  }

  predicate MayEncode(status: OrderStatus) {
    status.REQUESTED? || status.READY_FOR_ENCODING? || status.ENCODING_FAILED?
  }

  function DoStart(s: State, c: Call): Result
    requires c.Start?
  {
    if !IsUid(c.ntagUID) then Refused(s, INVALID_UID)
    else if !Real(c.order) then
      Result(s.(sessions := s.sessions[c.sessionId := Session(c.tenant, c.assetId, None, Lower(c.ntagUID), c.keys, 1,
        IN_PROGRESS)]), None)
    else
      var id := c.order.value;
      if id !in s.orders || s.orders[id].tenantId != c.tenant || s.orders[id].assetId != c.assetId then
        Refused(s, FULFILLMENT_ORDER_NOT_FOUND)
      else if !MayEncode(s.orders[id].status) then Refused(s, ORDER_NOT_READY)
      else
        var o := s.orders[id];
        var session := Session(c.tenant, c.assetId, Some(id), Lower(c.ntagUID), c.keys, o.attempts + 1, IN_PROGRESS);
        Result(s.(sessions := s.sessions[c.sessionId := session],
                  orders := s.orders[id := o.(status := ENCODING_IN_PROGRESS, attempts := o.attempts + 1)]), None)
  }

  function DoRelease(s: State, c: Call): Result
    requires c.Release?
  {
    if c.tenant !in s.tenants then Refused(s, TENANT_NOT_FOUND)
    else if c.orderId !in s.orders || s.orders[c.orderId].tenantId != c.tenant then
      Refused(s, FULFILLMENT_ORDER_NOT_FOUND)
    else
      var o, key := s.orders[c.orderId], OrDefault(c.key, ReleaseKey(c.orderId));
      if o.status.ACTIVATED? then Refused(s, QTAG_ALREADY_ACTIVATED)
      else if Find(s.rows, c.tenant, key).Some? then Result(s, None)
      else if Reserved(s.rows, c.tenant, o.userId) < 1 then Refused(s, INSUFFICIENT_RESERVED_QTAGS)
      else
        Result(s.(rows := s.rows + [ReleaseRow(o, c.orderId).(idempotencyKey := Some(key))],
          orders := s.orders[c.orderId := o.(status := CANCELLED)]), None)
  }

  // ----- confirm, write by write -----

  /** The checks before the first write. */
  function ConfirmRefusal(s: State, c: Call): Option<Error>
    requires c.Confirm?
  {
    if c.sessionId !in s.sessions || s.sessions[c.sessionId].tenantId != c.tenant then Some(SESSION_NOT_FOUND)
    else if s.sessions[c.sessionId].ntagUID != "" && s.sessions[c.sessionId].ntagUID != Lower(c.ntagUID) then
      Some(UID_MISMATCH)
    else if c.success && c.bytesWritten < 144 then Some(INCOMPLETE_WRITE)
    else None
  }

  function CloseSession(s: State, c: Call): Result
    requires c.Confirm? && c.sessionId in s.sessions
  {
    var session := s.sessions[c.sessionId];
    Result(s.(sessions := s.sessions[c.sessionId := session.(status := if c.success then COMPLETED else FAILED)]), None)
  }

  function UpsertDevice(s: State, c: Call): Result
    requires c.Confirm? && c.sessionId in s.sessions
  {
    var uid := Lower(c.ntagUID);
    var keys := s.sessions[c.sessionId].keys;
    var device := if uid in s.devices then s.devices[uid].(keys := keys, isActive := true)
        else Device(c.tenant, keys, true);
    Result(s.(devices := s.devices[uid := device]), None)
  }

  function FailOrder(s: State, orderId: string): Result {
    if orderId !in s.orders then Refused(s, NO_SUCH_RECORD)
    else Result(s.(orders := s.orders[orderId := s.orders[orderId].(status := ENCODING_FAILED)]), None)
  }

  /** The order lookup and the asset link; an asset's device is unique, so a device linked elsewhere is refused. */
  function LinkAsset(s: State, c: Call, session: Session, orderId: string): Result
    requires c.Confirm?
  {
    var uid := Lower(c.ntagUID);
    if orderId !in s.orders || s.orders[orderId].tenantId != c.tenant
        || s.orders[orderId].assetId != session.assetId then
      Refused(s, FULFILLMENT_ORDER_NOT_FOUND)
    else if session.assetId !in s.assets then Refused(s, NO_SUCH_RECORD)
    else if exists a ::
      a in s.assets && a != session.assetId
      && s.assets[a].deviceId == Some(uid) then Refused(s, DEVICE_LINKED_ELSEWHERE)
    else Result(s.(assets := s.assets[session.assetId := s.assets[session.assetId].(deviceId := Some(uid))]), None)
  }

  /** `consumeReservation` for the user the caller looked up. */
  function ConsumeReservation(s: State, tenant: string, orderId: string, user: Option<string>): Result {
    if Find(s.rows, tenant, ConsumeKey(orderId)).Some? then Result(s, None)
    else if Reserved(s.rows, tenant, user) < 1 then Refused(s, INSUFFICIENT_RESERVED_QTAGS)
    else Append(s, Entry(tenant, OrUndefined(user), CONSUMED, 1, 0, -1, Some(ConsumeKey(orderId)), Some(orderId)))
  }

  function ActivateOrder(s: State, orderId: string): Result
    requires orderId in s.orders
  {
    Result(s.(orders := s.orders[orderId := s.orders[orderId].(status := ACTIVATED)]), None)
  }

  /** The n-th write of a confirm: session, device, asset link, ledger, order. */
  function Write(s: State, c: Call, n: nat): Result
    requires c.Confirm? && c.sessionId in s.sessions
  {
    var session := s.sessions[c.sessionId];
    if n == 1 then CloseSession(s, c)
    else if !c.success then (if n == 2 && session.orderId.Some? then FailOrder(s, session.orderId.value)
      else Result(s, None))
    else if n == 2 then UpsertDevice(s, c)
    else if session.orderId.None? then Result(s, None)
    else if n == 3 then LinkAsset(s, c, session, session.orderId.value)
    else if session.orderId.value !in s.orders then Refused(s, NO_SUCH_RECORD)
    else if n == 4 then ConsumeReservation(s, c.tenant, session.orderId.value, s.orders[session.orderId.value].userId)
    else ActivateOrder(s, session.orderId.value)
  }

  /** A confirm stopped after its n-th write (or earlier, if it threw). */
  function UpTo(s: State, c: Call, n: nat): (r: Result)
    requires c.Confirm?
    ensures r.error.None? ==> c.sessionId in r.state.sessions
  {
    if n == 0 then Result(s, ConfirmRefusal(s, c))
    else
      var p := UpTo(s, c, n - 1);
      if p.error.Some? then p else Write(p.state, c, n)
  }

  function DoConfirm(s: State, c: Call): Result
    requires c.Confirm?
  {
    UpTo(s, c, 5)
  }

  function Step(s: State, c: Call): Result {
    match c
    case Fund(_, _, _, _, _) => DoFund(s, c)
    case Reserve(_, _, _, _, _) => DoReserve(s, c)
    case Start(_, _, _, _, _, _) => DoStart(s, c)
    case Confirm(_, _, _, _, _) => DoConfirm(s, c)
    case Release(_, _, _) => DoRelease(s, c)
  }
}
