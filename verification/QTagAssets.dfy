/** What the orders mean for the assets: one live order each, and a device of its own once it is activated. */
module QTagAssets {
  import opened Common
  import opened LedgerTable
  import opened QTagOrders
  import opened QTagProofs
  import opened QTagRecovery

  // ----- one live order per asset -----

  predicate Live(o: Order) {
    !o.status.CANCELLED? && !o.status.EXPIRED?
  }

  ghost predicate OneLiveOrder(orders: map<string, Order>) {
    forall x, y :: x in orders && y in orders && x != y && Live(orders[x]) && Live(orders[y])
                   ==> orders[x].tenantId != orders[y].tenantId || orders[x].assetId != orders[y].assetId
  }

  /** What most calls do to the orders: whose they are never changes, and none comes back to life. */
  ghost predicate OrdersAge(orders: map<string, Order>, orders': map<string, Order>) {
    SameOwners(orders, orders') && forall id <- orders :: Live(orders'[id]) ==> Live(orders[id])
  }

  lemma AgeingKeepsOneLiveOrder(orders: map<string, Order>, orders': map<string, Order>)
    requires OneLiveOrder(orders) && OrdersAge(orders, orders')
    ensures OneLiveOrder(orders')
  {
  }

  ghost predicate SameOwners(orders: map<string, Order>, orders': map<string, Order>) {
    && orders'.Keys == orders.Keys
    && forall id <- orders :: orders'[id].tenantId == orders[id].tenantId && orders'[id].assetId == orders[id].assetId
  }

  lemma WriteKeepsOwners(s: State, c: Call, n: nat)
    requires c.Confirm? && c.sessionId in s.sessions
    ensures SameOwners(s.orders, Write(s, c, n).state.orders)
  {
  }

  lemma {:induction false} ConfirmKeepsOwners(s: State, c: Call, n: nat)
    requires c.Confirm?
    ensures SameOwners(s.orders, UpTo(s, c, n).state.orders)
  {
    if n == 0 {
    } else {
      ConfirmKeepsOwners(s, c, n - 1);
      if UpTo(s, c, n - 1).error.None? {
        WriteKeepsOwners(UpTo(s, c, n - 1).state, c, n);
      }
    }
  }

  lemma ConfirmAges(s: State, c: Call)
    requires Inv(s) && Orderly(s, c) && c.Confirm?
    ensures OrdersAge(s.orders, DoConfirm(s, c).state.orders)
  {
    ConfirmKeepsOwners(s, c, 5);
    forall id | id in s.orders && !Live(s.orders[id]) ensures DoConfirm(s, c).state.orders[id] == s.orders[id] {
      assert OrderMatches(s.tenants, s.rows, id, s.orders[id]);
      ConfirmKeepsEndedOrder(s, c, id);
    }
  }

  lemma CallKeepsOneLiveOrder(s: State, c: Call)
    requires Inv(s) && Orderly(s, c) && OneLiveOrder(s.orders)
    ensures OneLiveOrder(Step(s, c).state.orders)
  {
    if c.Reserve? {
      ReserveKeepsOneLiveOrder(s, c);
    } else {
      match c
      case Fund(_, _, _, _, _) =>
      case Start(_, _, _, _, _, _) => StartAges(s, c);
      case Release(_, _, _) => ReleaseAges(s, c);
      case Confirm(_, _, _, _, _) => ConfirmAges(s, c);
      AgeingKeepsOneLiveOrder(s.orders, Step(s, c).state.orders);
    }
  }

  lemma ReleaseAges(s: State, c: Call)
    requires c.Release?
    ensures OrdersAge(s.orders, DoRelease(s, c).state.orders)
  {
  }

  lemma ReserveKeepsOneLiveOrder(s: State, c: Call)
    requires c.Reserve? && OneLiveOrder(s.orders)
    ensures OneLiveOrder(DoReserve(s, c).state.orders)
  {
  }

  lemma StartAges(s: State, c: Call)
    requires c.Start?
    ensures OrdersAge(s.orders, DoStart(s, c).state.orders)
  {
  }

  /** Over every orderly run, an asset has at most one order of its tenant that is neither cancelled nor expired. */
  lemma {:induction false} AssetsHaveOneLiveOrder(tenants: set<string>, assets: map<string, Asset>, calls: seq<Call>)
    requires OrderlyRun(Empty(tenants, assets), calls)
    ensures OneLiveOrder(Run(Empty(tenants, assets), calls).orders)
  {
    if calls == [] {
    } else {
      var before := calls[..|calls| - 1];
      AssetsHaveOneLiveOrder(tenants, assets, before);
      RunKeepsInv(tenants, assets, before);
      CallKeepsOneLiveOrder(Run(Empty(tenants, assets), before), calls[|calls| - 1]);
    }
  }

  // ----- the device of an asset -----

  /** A linked device exists and is active, and no two assets share one. */
  ghost predicate DevicesFit(devices: map<string, Device>, assets: map<string, Asset>) {
    && (forall a <- assets :: assets[a].deviceId.Some? ==>
        assets[a].deviceId.value in devices
        && devices[assets[a].deviceId.value].isActive)
    && (forall a, b :: a in assets && b in assets && a != b && assets[a].deviceId.Some? ==>
        assets[a].deviceId != assets[b].deviceId)
  }

  predicate HasDevice(assets: map<string, Asset>, assetId: string) {
    assetId in assets && assets[assetId].deviceId.Some?
  }

  ghost predicate ActivatedHaveDevices(orders: map<string, Order>, assets: map<string, Asset>) {
    forall id <- orders :: orders[id].status.ACTIVATED? ==> HasDevice(assets, orders[id].assetId)
  }

  lemma WriteKeepsDevices(s: State, c: Call, n: nat)
    requires c.Confirm? && c.sessionId in s.sessions && DevicesFit(s.devices, s.assets)
             && ActivatedHaveDevices(s.orders, s.assets)
    requires n >= 1
    requires n >= 3 ==> c.success ==> Done(s, c, 2)
    requires n >= 5 ==> c.success ==> Done(s, c, 3)
    ensures var s' := Write(s, c, n).state;
            DevicesFit(s'.devices, s'.assets)
            && ActivatedHaveDevices(s'.orders, s'.assets)
  {
    var s' := Write(s, c, n).state;
    var session := s.sessions[c.sessionId];
    if c.success && n == 3 && session.orderId.Some? && Write(s, c, 3).error.None? {
      assert Lower(c.ntagUID) in s.devices && s.devices[Lower(c.ntagUID)].isActive by {
        assert UpsertDevice(s, c).state == s;
      }
      assert s' == s.(assets := s.assets[session.assetId := s.assets[session.assetId].(deviceId :=
          Some(Lower(c.ntagUID)))]);
    } else if c.success && n >= 5 && session.orderId.Some? && session.orderId.value in s.orders {
      var id := session.orderId.value;
      LinkedAssetHasDevice(s, c, session, id);
      assert s' == s.(orders := s.orders[id := s.orders[id].(status := ACTIVATED)]);
      ActivationKeepsDevices(s.orders, s.assets, id);
    }
  }

  lemma ActivationKeepsDevices(orders: map<string, Order>, assets: map<string, Asset>, id: string)
    requires ActivatedHaveDevices(orders, assets) && id in orders && HasDevice(assets, orders[id].assetId)
    ensures ActivatedHaveDevices(orders[id := orders[id].(status := ACTIVATED)], assets)
  {
  }

  lemma LinkedAssetHasDevice(s: State, c: Call, session: Session, id: string)
    requires c.Confirm? && LinkAsset(s, c, session, id) == Result(s, None)
    ensures HasDevice(s.assets, session.assetId) && id in s.orders && s.orders[id].assetId == session.assetId
  {
    assert s.assets == LinkAsset(s, c, session, id).state.assets;
  }

  lemma {:induction false} ConfirmKeepsDevices(s: State, c: Call, n: nat)
    requires c.Confirm? && n <= 5 && DevicesFit(s.devices, s.assets) && ActivatedHaveDevices(s.orders, s.assets)
    ensures var s' := UpTo(s, c, n).state;
            DevicesFit(s'.devices, s'.assets)
            && ActivatedHaveDevices(s'.orders, s'.assets)
  {
    if n == 0 {
    } else {
      ConfirmKeepsDevices(s, c, n - 1);
      if UpTo(s, c, n - 1).error.None? {
        if n >= 3 {
          EarlierWritesAreDone(s, c, 2, n - 1);
        }
        if n >= 5 {
          EarlierWritesAreDone(s, c, 3, n - 1);
        }
        WriteKeepsDevices(UpTo(s, c, n - 1).state, c, n);
      }
    }
  }

  lemma CallKeepsDevices(s: State, c: Call)
    requires DevicesFit(s.devices, s.assets) && ActivatedHaveDevices(s.orders, s.assets)
    ensures var s' := Step(s, c).state; DevicesFit(s'.devices, s'.assets) && ActivatedHaveDevices(s'.orders, s'.assets)
  {
    match c
    case Fund(_, _, _, _, _) => assert DoFund(s, c).state.orders == s.orders;
    case Reserve(_, _, _, _, _) =>
    case Start(_, _, _, _, _, _) =>
    case Release(_, _, _) =>
    case Confirm(_, _, _, _, _) => ConfirmKeepsDevices(s, c, 5);
  }

  /** Over every run, orderly or not, that starts with untagged assets: the asset of an ACTIVATED order carries a device
      that exists and is active, and no device is linked to two assets. */
  lemma {:induction false} ActivatedAssetsCarryTheirOwnDevice(tenants: set<string>, assets: map<string, Asset>,
                                                              calls: seq<Call>)
    requires forall a <- assets :: assets[a].deviceId.None?
    ensures var s := Run(Empty(tenants, assets), calls);
            DevicesFit(s.devices, s.assets) && ActivatedHaveDevices(s.orders, s.assets)
  {
    if calls == [] {
    } else {
      ActivatedAssetsCarryTheirOwnDevice(tenants, assets, calls[..|calls| - 1]);
      CallKeepsDevices(Run(Empty(tenants, assets), calls[..|calls| - 1]), calls[|calls| - 1]);
    }
  }

  // ----- an asset reserved once under its default key -----

  ghost predicate NoLiveOrder(orders: map<string, Order>, tenant: string, assetId: string) {
    forall id <- orders :: orders[id].tenantId == tenant && orders[id].assetId == assetId ==> !Live(orders[id])
  }

  /** For an asset that could be reserved, a reservation creates an order if and only if its key is new: after a release
      the default key answers with the old row, without an error and without an order. */
  lemma ReserveCreatesIff(s: State, c: Call)
    requires c.Reserve? && c.tenant in s.tenants && c.assetId in s.assets && s.assets[c.assetId].tenantId == c.tenant
    requires !Real(s.assets[c.assetId].deviceId) && NoLiveOrder(s.orders, c.tenant, c.assetId)
    requires Available(s.rows, c.tenant, c.user) >= 1 && c.orderId !in s.orders
    ensures DoReserve(s, c).error.None?
    ensures c.orderId in DoReserve(s, c).state.orders
            <==> !HasKey(s.rows, c.tenant, OrDefault(c.key, ReserveKey(c.tenant, c.assetId)))
    ensures HasKey(s.rows, c.tenant, OrDefault(c.key, ReserveKey(c.tenant, c.assetId))) ==> DoReserve(s, c).state == s
  {
  }

  lemma {:induction false} ConfirmKeepsRows(s: State, c: Call, n: nat)
    requires c.Confirm?
    ensures s.rows <= UpTo(s, c, n).state.rows
  {
    if n == 0 {
    } else {
      ConfirmKeepsRows(s, c, n - 1);
    }
  }

  lemma LongerTableKeepsKey(rows: seq<Entry>, rows': seq<Entry>, tenant: string, key: string)
    requires rows <= rows' && HasKey(rows, tenant, key)
    ensures HasKey(rows', tenant, key)
  {
    var i :| 0 <= i < |rows| && HasKeyAt(rows[i], tenant, key);
    assert HasKeyAt(rows'[i], tenant, key);
  }

  lemma CallKeepsKey(s: State, c: Call, tenant: string, key: string)
    requires HasKey(s.rows, tenant, key)
    ensures HasKey(Step(s, c).state.rows, tenant, key)
  {
    match c
    case Fund(_, _, _, _, _) => LongerTableKeepsKey(s.rows, DoFund(s, c).state.rows, tenant, key);
    case Reserve(_, _, _, _, _) => LongerTableKeepsKey(s.rows, DoReserve(s, c).state.rows, tenant, key);
    case Start(_, _, _, _, _, _) => assert DoStart(s, c).state.rows == s.rows;
    case Release(_, _, _) => LongerTableKeepsKey(s.rows, DoRelease(s, c).state.rows, tenant, key);
    case Confirm(_, _, _, _, _) =>
      ConfirmKeepsRows(s, c, 5);
      LongerTableKeepsKey(s.rows, DoConfirm(s, c).state.rows, tenant, key);
  }

  /** The call reserves this asset, if at all, under its default key. */
  predicate DefaultKeyOnly(c: Call, tenant: string, assetId: string) {
    c.Reserve? && c.tenant == tenant && c.assetId == assetId ==> !Real(c.key)
  }

  lemma AgeingKeepsNoLiveOrder(orders: map<string, Order>, orders': map<string, Order>, tenant: string, assetId: string)
    requires OrdersAge(orders, orders') && NoLiveOrder(orders, tenant, assetId)
    ensures NoLiveOrder(orders', tenant, assetId)
  {
  }

  lemma ReserveKeepsNoLiveOrder(s: State, c: Call, tenant: string, assetId: string)
    requires c.Reserve? && DefaultKeyOnly(c, tenant, assetId)
    requires NoLiveOrder(s.orders, tenant, assetId) && HasKey(s.rows, tenant, ReserveKey(tenant, assetId))
    ensures NoLiveOrder(DoReserve(s, c).state.orders, tenant, assetId)
  {
  }

  lemma CallKeepsNoLiveOrder(s: State, c: Call, tenant: string, assetId: string)
    requires Inv(s) && Orderly(s, c) && DefaultKeyOnly(c, tenant, assetId)
    requires NoLiveOrder(s.orders, tenant, assetId) && HasKey(s.rows, tenant, ReserveKey(tenant, assetId))
    ensures NoLiveOrder(Step(s, c).state.orders, tenant, assetId)
  {
    if c.Reserve? {
      ReserveKeepsNoLiveOrder(s, c, tenant, assetId);
    } else {
      match c
      case Fund(_, _, _, _, _) =>
      case Start(_, _, _, _, _, _) => StartAges(s, c);
      case Release(_, _, _) => ReleaseAges(s, c);
      case Confirm(_, _, _, _, _) => ConfirmAges(s, c);
      AgeingKeepsNoLiveOrder(s.orders, Step(s, c).state.orders, tenant, assetId);
    }
  }

  /** Once an asset has been reserved under its default key and is without a live order, because it was released, no run
      of default reservations ever gives it an order again: only a key of the caller's own does. */
  lemma {:induction false} ReleasedAssetStaysUnreserved(tenants: set<string>, assets: map<string, Asset>,
                                                        calls: seq<Call>, m: nat, tenant: string, assetId: string)
    requires OrderlyRun(Empty(tenants, assets), calls) && m <= |calls|
    requires var s := Run(Empty(tenants, assets), calls[..m]);
             NoLiveOrder(s.orders, tenant, assetId) && HasKey(s.rows, tenant, ReserveKey(tenant, assetId))
    requires forall i :: m <= i < |calls| ==> DefaultKeyOnly(calls[i], tenant, assetId)
    ensures var s := Run(Empty(tenants, assets), calls);
            NoLiveOrder(s.orders, tenant, assetId) && HasKey(s.rows, tenant, ReserveKey(tenant, assetId))
  {
    if m == |calls| {
      assert calls[..m] == calls;
    } else {
      var before, c := calls[..|calls| - 1], calls[|calls| - 1];
      assert before[..m] == calls[..m];
      ReleasedAssetStaysUnreserved(tenants, assets, before, m, tenant, assetId);
      RunKeepsInv(tenants, assets, before);
      CallKeepsNoLiveOrder(Run(Empty(tenants, assets), before), c, tenant, assetId);
      CallKeepsKey(Run(Empty(tenants, assets), before), c, tenant, ReserveKey(tenant, assetId));
    }
  }

  // ----- releasing under keys of the caller's own -----

  /** A cancelled order released again, under a fresh key of the caller's, goes through if and only if the scope still
      has a reservation; then the order has two RELEASED rows and another order's tag is given back. */
  lemma ReleasedAgainIff(s: State, c: Call)
    requires Inv(s) && c.Release? && Real(c.key) && Foreign(c.key.value) && !HasKey(s.rows, c.tenant, c.key.value)
    requires c.orderId in s.orders && s.orders[c.orderId].tenantId == c.tenant && s.orders[c.orderId].status.CANCELLED?
    ensures var r := DoRelease(s, c);
            if Reserved(s.rows, c.tenant, s.orders[c.orderId].userId) < 1 then r
                == Result(s, Some(INSUFFICIENT_RESERVED_QTAGS))
            else
              && r.error.None? && RowCount(r.state.rows, c.orderId, RELEASED) == 2
              && Reserved(r.state.rows, c.tenant, None) == |HeldIn(r.state.orders, c.tenant, None)| - 1
  {
    var id, o := c.orderId, s.orders[c.orderId];
    assert OrderMatches(s.tenants, s.rows, id, o);
    var e := ReleaseRow(o, id).(idempotencyKey := c.key);
    CountAdded(s.rows, e, id);
    SumAppend(s.rows, e, ReservedIn(c.tenant, None));
    assert s.orders[id := o.(status := CANCELLED)] == s.orders;
  }
}
