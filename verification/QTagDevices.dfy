/** Which device an activated order carries, whose keys it holds, and what it takes to activate an order. */
module QTagDevices {
  import opened Common
  import opened LedgerTable
  import opened QTagOrders
  import opened QTagProofs
  import opened QTagRecovery
  import opened QTagInterrupted
  import opened QTagAssets

  // ----- sessions -----

  /** A session's uid is fourteen characters, in lower case. */
  predicate UidsGiven(sessions: map<string, Session>) {
    forall x <- sessions :: |sessions[x].ntagUID| == 14
  }

  /** What a confirm may change of the sessions: the status of its own. */
  predicate SessionsStand(sessions: map<string, Session>, sessions': map<string, Session>, sessionId: string) {
    && sessions'.Keys == sessions.Keys
    && forall x <- sessions ::
         SameSession(sessions[x], sessions'[x]) && (x != sessionId ==> sessions'[x].status == sessions[x].status)
  }

  lemma WriteKeepsSessions(s: State, c: Call, n: nat)
    requires c.Confirm? && c.sessionId in s.sessions
    ensures SessionsStand(s.sessions, Write(s, c, n).state.sessions, c.sessionId)
  {
    if n == 1 {
      assert Write(s, c, 1) == CloseSession(s, c);
    } else {
      assert Write(s, c, n).state.sessions == s.sessions;
    }
  }

  lemma {:induction false} ConfirmKeepsSessions(s: State, c: Call, n: nat)
    requires c.Confirm?
    ensures SessionsStand(s.sessions, UpTo(s, c, n).state.sessions, c.sessionId)
  {
    if n == 0 {
    } else {
      ConfirmKeepsSessions(s, c, n - 1);
      if UpTo(s, c, n - 1).error.None? {
        WriteKeepsSessions(UpTo(s, c, n - 1).state, c, n);
      }
    }
  }

  lemma {:induction false} UidsStayGiven(tenants: set<string>, assets: map<string, Asset>, moves: seq<Move>)
    ensures UidsGiven(RunOf(Empty(tenants, assets), moves).sessions)
  {
    if moves == [] {
    } else {
      var s, m := RunOf(Empty(tenants, assets), moves[..|moves| - 1]), moves[|moves| - 1];
      UidsStayGiven(tenants, assets, moves[..|moves| - 1]);
      MoveKeepsUids(s, m);
    }
  }

  lemma StartKeepsUids(s: State, c: Call)
    requires UidsGiven(s.sessions) && c.Start?
    ensures UidsGiven(DoStart(s, c).state.sessions)
  {
    var s' := DoStart(s, c).state;
    assert s'.sessions == s.sessions || |s'.sessions[c.sessionId].ntagUID| == |c.ntagUID| == 14;
  }

  lemma MoveKeepsUids(s: State, m: Move)
    requires UidsGiven(s.sessions)
    ensures UidsGiven(After(s, m).sessions)
  {
    var c := m.call;
    if c.Confirm? {
      ConfirmKeepsSessions(s, c, if m.Stop? then Least(m.writes, 5) else 5);
    } else if m.Do? {
      match c
      case Fund(_, _, _, _, _) => assert DoFund(s, c).state.sessions == s.sessions;
      case Reserve(_, _, _, _, _) => assert DoReserve(s, c).state.sessions == s.sessions;
      case Start(_, _, _, _, _, _) => StartKeepsUids(s, c);
      case Release(_, _, _) => assert DoRelease(s, c).state.sessions == s.sessions;
    }
  }

  // ----- the keys of a device -----

  /** The confirm was for this session's own tenant and uid, reports success and a complete write. */
  predicate Accepted(s: State, c: Call) {
    && c.Confirm? && c.success && c.bytesWritten >= 144
    && c.sessionId in s.sessions && s.sessions[c.sessionId].tenantId == c.tenant
    && s.sessions[c.sessionId].ntagUID == Lower(c.ntagUID)
  }

  /** An accepted confirm that was not stopped before its second write. */
  predicate ReachesDevice(s: State, m: Move) {
    Accepted(s, m.call) && (m.Stop? ==> m.writes >= 2)
  }

  /** The keys of the session last confirmed, as far as its device, for a uid. */
  function LastKeys(s: State, moves: seq<Move>, uid: string): Option<Keys> {
    if moves == [] then None
    else
      var before, m := RunOf(s, moves[..|moves| - 1]), moves[|moves| - 1];
      if ReachesDevice(before, m) && Lower(m.call.ntagUID) == uid then Some(before.sessions[m.call.sessionId].keys)
      else LastKeys(s, moves[..|moves| - 1], uid)
  }

  lemma AcceptedIffNotRefused(s: State, c: Call)
    requires c.Confirm? && UidsGiven(s.sessions)
    ensures Accepted(s, c) <==> c.success && ConfirmRefusal(s, c).None?
  {
  }

  /** Only the second write touches a device. */
  lemma OtherWritesKeepDevices(s: State, c: Call, n: nat)
    requires c.Confirm? && c.sessionId in s.sessions && (n != 2 || !c.success)
    ensures Write(s, c, n).state.devices == s.devices
  {
  }

  lemma {:induction false} LaterWritesKeepDevices(s: State, c: Call, n: nat)
    requires c.Confirm? && n >= 1 && (n >= 2 || !c.success)
    ensures UpTo(s, c, n).state.devices == UpTo(s, c, if c.success then 2 else 1).state.devices
  {
    if n == (if c.success then 2 else 1) {
    } else {
      LaterWritesKeepDevices(s, c, n - 1);
      if UpTo(s, c, n - 1).error.None? {
        OtherWritesKeepDevices(UpTo(s, c, n - 1).state, c, n);
      }
    }
  }

  /** The device of the uid takes the keys; a new one is the tenant's, one that exists keeps its owner. */
  predicate DeviceTakesKeys(devices: map<string, Device>, devices': map<string, Device>, uid: string, keys: Keys,
                            tenant: string) {
    && devices'.Keys == devices.Keys + {uid}
    && devices'[uid].isActive && devices'[uid].keys == keys
    && devices'[uid].tenantId == (if uid in devices then devices[uid].tenantId else tenant)
    && forall x <- devices :: x != uid ==> devices'[x] == devices[x]
  }

  lemma ConfirmedDevice(s: State, c: Call, n: nat)
    requires c.Confirm? && UidsGiven(s.sessions)
    ensures if Accepted(s, c) && n >= 2 then
              DeviceTakesKeys(s.devices, UpTo(s, c, n).state.devices, Lower(c.ntagUID), s.sessions[c.sessionId].keys,
                              c.tenant)
            else UpTo(s, c, n).state.devices == s.devices
  {
    AcceptedIffNotRefused(s, c);
    if ConfirmRefusal(s, c).Some? {
      RefusedConfirmChangesNothing(s, c, n);
    } else if n >= 1 {
      assert UpTo(s, c, 0) == Result(s, None);
      assert UpTo(s, c, 1) == CloseSession(s, c);
      if n >= 2 {
        assert UpTo(s, c, 2) == Write(CloseSession(s, c).state, c, 2);
        LaterWritesKeepDevices(s, c, n);
      }
    }
  }

  ghost predicate DeviceHolds(s: State, uid: string, keys: Option<Keys>) {
    if keys.Some? then uid in s.devices && s.devices[uid].isActive
        && s.devices[uid].keys == keys.value else uid !in s.devices
  }

  lemma MoveKeepsDevice(s: State, m: Move, uid: string, keys: Option<Keys>)
    requires UidsGiven(s.sessions) && DeviceHolds(s, uid, keys)
    ensures DeviceHolds(After(s, m), uid, if ReachesDevice(s, m) && Lower(m.call.ntagUID) == uid
                                          then Some(s.sessions[m.call.sessionId].keys) else keys)
  {
    var c := m.call;
    if c.Confirm? {
      ConfirmedDevice(s, c, if m.Stop? then Least(m.writes, 5) else 5);
    } else if m.Do? {
      match c
      case Fund(_, _, _, _, _) => assert DoFund(s, c).state.devices == s.devices;
      case Reserve(_, _, _, _, _) => assert DoReserve(s, c).state.devices == s.devices;
      case Start(_, _, _, _, _, _) => assert DoStart(s, c).state.devices == s.devices;
      case Release(_, _, _) => assert DoRelease(s, c).state.devices == s.devices;
    }
  }

  /** Over every run: a device is active and holds the keys of the session last confirmed for its uid, and there is one
      exactly for the uids some session was confirmed for. */
  lemma {:induction false} DevicesHoldTheLastKeys(tenants: set<string>, assets: map<string, Asset>, moves: seq<Move>,
                                                  uid: string)
    ensures DeviceHolds(RunOf(Empty(tenants, assets), moves), uid, LastKeys(Empty(tenants, assets), moves, uid))
  {
    if moves == [] {
    } else {
      var before := moves[..|moves| - 1];
      DevicesHoldTheLastKeys(tenants, assets, before, uid);
      UidsStayGiven(tenants, assets, before);
      MoveKeepsDevice(RunOf(Empty(tenants, assets), before), moves[|moves| - 1], uid,
        LastKeys(Empty(tenants, assets), before, uid));
    }
  }

  // ----- what activates an order -----

  /** The move is an accepted confirm of a session of the order. */
  predicate Activates(s: State, m: Move, id: string) {
    Accepted(s, m.call) && s.sessions[m.call.sessionId].orderId == Some(id)
  }

  predicate IsActivated(s: State, id: string) {
    id in s.orders && s.orders[id].status.ACTIVATED?
  }

  lemma ConfirmActivates(s: State, c: Call, n: nat, id: string)
    requires c.Confirm? && UidsGiven(s.sessions) && !IsActivated(s, id) && IsActivated(UpTo(s, c, n).state, id)
    ensures Accepted(s, c) && s.sessions[c.sessionId].orderId == Some(id)
  {
    AcceptedIffNotRefused(s, c);
    if ConfirmRefusal(s, c).Some? {
      RefusedConfirmChangesNothing(s, c, n);
    } else if !c.success || s.sessions[c.sessionId].orderId != Some(id) {
      NoOtherActivation(s, c, n, id);
    }
  }

  lemma WriteActivates(s: State, c: Call, n: nat, id: string)
    requires c.Confirm? && c.sessionId in s.sessions && n >= 1 && !IsActivated(s, id)
    requires !c.success || s.sessions[c.sessionId].orderId != Some(id) || n <= 4
    ensures !IsActivated(Write(s, c, n).state, id)
  {
  }

  lemma {:induction false} NoOtherActivation(s: State, c: Call, n: nat, id: string)
    requires c.Confirm? && c.sessionId in s.sessions && !IsActivated(s, id)
    requires !c.success || s.sessions[c.sessionId].orderId != Some(id) || n <= 4
    ensures !IsActivated(UpTo(s, c, n).state, id)
  {
    if n == 0 {
    } else {
      NoOtherActivation(s, c, n - 1, id);
      ConfirmKeepsSessions(s, c, n - 1);
      if UpTo(s, c, n - 1).error.None? {
        WriteActivates(UpTo(s, c, n - 1).state, c, n, id);
      }
    }
  }

  lemma MoveActivates(s: State, m: Move, id: string)
    requires UidsGiven(s.sessions) && !IsActivated(s, id) && IsActivated(After(s, m), id)
    ensures Activates(s, m, id)
  {
    var c := m.call;
    if c.Confirm? {
      ConfirmActivates(s, c, if m.Stop? then Least(m.writes, 5) else 5, id);
    }
  }

  /** Over every run: an order is ACTIVATED only by a confirm of one of its own sessions, made by the session's tenant,
      for the session's uid, that reports success and at least 144 bytes written. */
  lemma {:induction false} ActivationTakesAnAcceptedConfirm(tenants: set<string>, assets: map<string, Asset>,
                                                            moves: seq<Move>, id: string)
    returns (k: nat)
    requires IsActivated(RunOf(Empty(tenants, assets), moves), id)
    ensures k < |moves| && Activates(RunOf(Empty(tenants, assets), moves[..k]), moves[k], id)
  {
    var before := moves[..|moves| - 1];
    if IsActivated(RunOf(Empty(tenants, assets), before), id) {
      k := ActivationTakesAnAcceptedConfirm(tenants, assets, before, id);
      assert before[..k] == moves[..k];
    } else {
      k := |moves| - 1;
      UidsStayGiven(tenants, assets, before);
      MoveActivates(RunOf(Empty(tenants, assets), before), moves[k], id);
    }
  }

  // ----- an activated order's asset carries the uid of its session -----

  /** The asset of an order exists and is of the order's tenant. */
  predicate AssetsOwned(orders: map<string, Order>, assets: map<string, Asset>) {
    forall id <- orders :: orders[id].assetId in assets && assets[orders[id].assetId].tenantId == orders[id].tenantId
  }

  /** The asset carries the uid of a COMPLETED session of the order. */
  ghost predicate CarriesItsUid(s: State, id: string)
    requires id in s.orders
  {
    exists x :: x in s.sessions && s.sessions[x].orderId == Some(id) && s.sessions[x].status.COMPLETED?
                && s.orders[id].assetId in s.assets
                && s.assets[s.orders[id].assetId].deviceId == Some(s.sessions[x].ntagUID)
  }

  ghost predicate ActivatedCarryTheirUids(s: State) {
    forall id <- s.orders :: s.orders[id].status.ACTIVATED? ==> CarriesItsUid(s, id)
  }

  ghost predicate Tagged(s: State) {
    OneLiveOrder(s.orders) && AssetsOwned(s.orders, s.assets) && UidsGiven(s.sessions) && ActivatedCarryTheirUids(s)
  }

  /** What every call but a confirm leaves as it is. */
  ghost predicate Grows(s: State, s': State) {
    && s'.assets == s.assets
    && (forall x <- s.sessions :: x in s'.sessions && s'.sessions[x] == s.sessions[x])
    && forall id <- s'.orders :: s'.orders[id].status.ACTIVATED? ==> id in s.orders && s'.orders[id] == s.orders[id]
  }

  lemma GrowthKeepsUids(s: State, s': State)
    requires ActivatedCarryTheirUids(s) && Grows(s, s')
    ensures ActivatedCarryTheirUids(s')
  {
    forall id | id in s'.orders && s'.orders[id].status.ACTIVATED? ensures CarriesItsUid(s', id) {
      assert CarriesItsUid(s, id);
    }
  }

  lemma FundKeepsTagged(s: State, c: Call)
    requires c.Fund? && Tagged(s)
    ensures Tagged(DoFund(s, c).state)
  {
    assert Grows(s, DoFund(s, c).state);
    GrowthKeepsUids(s, DoFund(s, c).state);
  }

  lemma ReserveKeepsTagged(s: State, c: Call)
    requires c.Reserve? && c.orderId !in s.orders && Tagged(s)
    ensures Tagged(DoReserve(s, c).state)
  {
    ReserveKeepsOneLiveOrder(s, c);
    GrowthKeepsUids(s, DoReserve(s, c).state);
  }

  lemma StartGrows(s: State, c: Call)
    requires c.Start? && c.sessionId !in s.sessions
    ensures Grows(s, DoStart(s, c).state)
  {
  }

  lemma StartKeepsTagged(s: State, c: Call)
    requires c.Start? && c.sessionId !in s.sessions && Tagged(s)
    ensures Tagged(DoStart(s, c).state)
  {
    StartKeepsUids(s, c);
    StartAges(s, c);
    AgeingKeepsOneLiveOrder(s.orders, DoStart(s, c).state.orders);
    StartGrows(s, c);
    GrowthKeepsUids(s, DoStart(s, c).state);
  }

  lemma ReleaseGrows(s: State, c: Call)
    requires c.Release?
    ensures Grows(s, DoRelease(s, c).state)
  {
  }

  lemma ReleaseKeepsTagged(s: State, c: Call)
    requires c.Release? && Tagged(s)
    ensures Tagged(DoRelease(s, c).state)
  {
    ReleaseAges(s, c);
    AgeingKeepsOneLiveOrder(s.orders, DoRelease(s, c).state.orders);
    ReleaseGrows(s, c);
    GrowthKeepsUids(s, DoRelease(s, c).state);
  }

  // ----- the confirm of an order -----

  /** Nothing but the device of one asset. */
  predicate OneAssetMoves(assets: map<string, Asset>, assets': map<string, Asset>, assetId: string) {
    && assets'.Keys == assets.Keys
    && forall a <- assets :: assets'[a].tenantId == assets[a].tenantId && (a != assetId ==> assets'[a] == assets[a])
  }

  lemma WriteMovesOneAsset(s: State, c: Call, n: nat)
    requires c.Confirm? && c.sessionId in s.sessions
    ensures OneAssetMoves(s.assets, Write(s, c, n).state.assets, s.sessions[c.sessionId].assetId)
    ensures s.sessions[c.sessionId].orderId.None? ==> Write(s, c, n).state.assets == s.assets
  {
  }

  lemma {:induction false} ConfirmMovesOneAsset(s: State, c: Call, n: nat)
    requires c.Confirm? && c.sessionId in s.sessions
    ensures OneAssetMoves(s.assets, UpTo(s, c, n).state.assets, s.sessions[c.sessionId].assetId)
    ensures s.sessions[c.sessionId].orderId.None? ==> UpTo(s, c, n).state.assets == s.assets
  {
    if n == 0 {
    } else {
      ConfirmMovesOneAsset(s, c, n - 1);
      ConfirmKeepsSessions(s, c, n - 1);
      if UpTo(s, c, n - 1).error.None? {
        WriteMovesOneAsset(UpTo(s, c, n - 1).state, c, n);
      }
    }
  }

  /** A confirm that has run to its end has closed its session and linked the asset of its order. */
  lemma FullConfirmLinks(s: State, c: Call, id: string)
    requires c.Confirm? && c.success && UpTo(s, c, 5).error.None?
    requires c.sessionId in s.sessions && s.sessions[c.sessionId].orderId == Some(id)
    ensures var s' := UpTo(s, c, 5).state;
            && c.sessionId in s'.sessions && s'.sessions[c.sessionId].status.COMPLETED? && id in s'.orders
            && s'.orders[id].assetId in s'.assets && s'.assets[s'.orders[id].assetId].deviceId == Some(Lower(c.ntagUID))
  {
    var s' := UpTo(s, c, 5).state;
    ConfirmKeepsSessions(s, c, 5);
    EarlierWritesAreDone(s, c, 1, 5);
    EarlierWritesAreDone(s, c, 3, 5);
    var session := s'.sessions[c.sessionId];
    assert Write(s', c, 1).state.sessions[c.sessionId].status.COMPLETED?;
    assert LinkAsset(s', c, session, id) == Result(s', None);
    assert s'.assets == LinkAsset(s', c, session, id).state.assets;
  }

  lemma {:induction false} ActivatedAtTheEnd(s: State, c: Call, n: nat, id: string)
    requires c.Confirm? && n <= 5 && !IsActivated(s, id) && IsActivated(UpTo(s, c, n).state, id)
    requires c.sessionId in s.sessions
    ensures n == 5 && UpTo(s, c, 5).error.None?
  {
    if n <= 4 {
      NoOtherActivation(s, c, n, id);
    } else {
      NoOtherActivation(s, c, 4, id);
    }
  }

  lemma ActivatedCarriesItsUid(s: State, c: Call, n: nat, id: string)
    requires c.Confirm? && n <= 5 && UidsGiven(s.sessions) && !IsActivated(s, id)
             && IsActivated(UpTo(s, c, n).state, id)
    ensures CarriesItsUid(UpTo(s, c, n).state, id)
  {
    ConfirmActivates(s, c, n, id);
    ActivatedAtTheEnd(s, c, n, id);
    FullConfirmLinks(s, c, id);
    ConfirmKeepsSessions(s, c, n);
    assert UpTo(s, c, n).state.sessions[c.sessionId].ntagUID == Lower(c.ntagUID);
  }

  /** The order the confirmed session is for is being encoded. */
  lemma TargetIsEncoding(s: State, c: Call, id: string)
    requires c.Confirm? && SessionsMatchOrders(s.sessions, s.orders) && Permitted(s, c)
    requires c.sessionId in s.sessions && s.sessions[c.sessionId].orderId == Some(id)
    ensures id in s.orders && s.orders[id].status.ENCODING_IN_PROGRESS?
  {
    var session := s.sessions[c.sessionId];
    assert session.status.IN_PROGRESS? ==> OpenSessionOf(session, id);
  }

  lemma OtherOrdersKeepTheirUids(s: State, c: Call, n: nat, id: string)
    requires c.Confirm? && SessionsMatchOrders(s.sessions, s.orders) && SessionsBelong(s.sessions, s.orders)
    requires Permitted(s, c) && Tagged(s) && IsActivated(s, id) && c.sessionId in s.sessions
    ensures IsActivated(UpTo(s, c, n).state, id) && CarriesItsUid(UpTo(s, c, n).state, id)
  {
    var s', session := UpTo(s, c, n).state, s.sessions[c.sessionId];
    if session.orderId.Some? {
      TargetIsEncoding(s, c, session.orderId.value);
      assert s.orders[id].assetId != session.assetId;
    }
    ConfirmTouchesOneOrder(s, c, id, n);
    ConfirmMovesOneAsset(s, c, n);
    ConfirmKeepsSessions(s, c, n);
    var x :| x in s.sessions && s.sessions[x].orderId == Some(id) && s.sessions[x].status.COMPLETED?
             && s.assets[s.orders[id].assetId].deviceId == Some(s.sessions[x].ntagUID);
    assert x in s'.sessions && s'.sessions[x].orderId == Some(id) && s'.sessions[x].status.COMPLETED?
           && s'.assets[s'.orders[id].assetId].deviceId == Some(s'.sessions[x].ntagUID);
  }

  lemma PermittedConfirmAges(s: State, c: Call, n: nat)
    requires c.Confirm? && SessionsMatchOrders(s.sessions, s.orders) && Permitted(s, c) && c.sessionId in s.sessions
    ensures OrdersAge(s.orders, UpTo(s, c, n).state.orders)
  {
    ConfirmKeepsOwners(s, c, n);
    var orderId := s.sessions[c.sessionId].orderId;
    if orderId.Some? {
      TargetIsEncoding(s, c, orderId.value);
    }
    forall id | id in s.orders && orderId != Some(id) ensures UpTo(s, c, n).state.orders[id] == s.orders[id] {
      ConfirmTouchesOneOrder(s, c, id, n);
    }
  }

  lemma ConfirmKeepsTagged(s: State, c: Call, n: nat)
    requires c.Confirm? && n <= 5 && Holds(s.tenants, s.rows, s.sessions, s.orders) && Permitted(s, c) && Tagged(s)
    ensures Tagged(UpTo(s, c, n).state)
  {
    var s' := UpTo(s, c, n).state;
    if c.sessionId !in s.sessions {
      RefusedConfirmChangesNothing(s, c, n);
    } else {
      PermittedConfirmAges(s, c, n);
      AgeingKeepsOneLiveOrder(s.orders, s'.orders);
      ConfirmMovesOneAsset(s, c, n);
      ConfirmKeepsSessions(s, c, n);
      forall id | id in s'.orders && s'.orders[id].status.ACTIVATED? ensures CarriesItsUid(s', id) {
        if IsActivated(s, id) {
          OtherOrdersKeepTheirUids(s, c, n, id);
        } else {
          ActivatedCarriesItsUid(s, c, n, id);
        }
      }
    }
  }

  lemma MoveKeepsTagged(s: State, m: Move)
    requires Holds(s.tenants, s.rows, s.sessions, s.orders) && Permitted(s, m.call) && Tagged(s)
    ensures Tagged(After(s, m))
  {
    var c := m.call;
    if c.Confirm? {
      ConfirmKeepsTagged(s, c, if m.Stop? then Least(m.writes, 5) else 5);
    } else if m.Do? {
      match c
      case Fund(_, _, _, _, _) => FundKeepsTagged(s, c);
      case Reserve(_, _, _, _, _) => ReserveKeepsTagged(s, c);
      case Start(_, _, _, _, _, _) => StartKeepsTagged(s, c);
      case Release(_, _, _) => ReleaseKeepsTagged(s, c);
    }
  }

  /** Over every permitted run, orderly or interrupted: the asset of an ACTIVATED order carries the uid of a COMPLETED
      session of that order. */
  lemma {:induction false} ActivatedCarryTheirSessionsUid(tenants: set<string>, assets: map<string, Asset>,
                                                          moves: seq<Move>)
    requires PermittedRun(Empty(tenants, assets), moves)
    ensures Tagged(RunOf(Empty(tenants, assets), moves))
  {
    if moves == [] {
    } else {
      var before := moves[..|moves| - 1];
      ActivatedCarryTheirSessionsUid(tenants, assets, before);
      RunKeepsHolds(tenants, assets, before);
      MoveKeepsTagged(RunOf(Empty(tenants, assets), before), moves[|moves| - 1]);
    }
  }
}
