/** One asset status shared by escrow, lifecycle, transfer and billing. */
module AssetEscrow {
  import opened Common

  datatype AssetStatus =
    | DRAFT | ACTIVE | SUSPENDED | ARCHIVED | BURNED | AWAITING_PAYMENT | LOCKED_IN_ESCROW | ALERT | INACTIVE

  datatype EscrowStatus = OPEN | PROCESSING | RELEASED | CANCELLED

  datatype ReleaseMode = AUTO | MANUAL

  datatype Role = ADMIN | OPERATOR | READER

  datatype Asset = Asset(tenantId: string, status: AssetStatus)

  /** An escrow without an asset has the empty asset id, which is what the release worker passes on for it. */
  datatype Escrow = Escrow(tenantId: string, assetId: string, releaseMode: ReleaseMode, unlockTimestamp: int,
    status: EscrowStatus)

  datatype Error =
    | INSUFFICIENT_ROLE | INVALID_UNLOCK_TIMESTAMP | ASSET_NOT_FOUND | INVALID_ASSET_STATE | DUPLICATE_ESCROW_ID
    | CHAIN_FAILURE | ESCROW_NOT_FOUND | ESCROW_ALREADY_CLOSED | RELEASE_MODE_MISMATCH
    | ASSET_LOCKED | STATE_TRANSITION_FORBIDDEN | NO_SUCH_RECORD

  datatype Outcome = Done | Failed(error: Error)

  /** The two tables. Escrows are keyed by their unique escrowId; ACTIVE escrows are called OPEN here. */
  datatype State = State(assets: map<string, Asset>, escrows: map<string, Escrow>)

  predicate IsOpen(e: Escrow) {
    e.status.OPEN? || e.status.PROCESSING?
  }

  function SetAsset(s: State, assetId: string, status: AssetStatus): State
    requires assetId in s.assets
  {
    s.(assets := s.assets[assetId := s.assets[assetId].(status := status)])
  }

  function SetEscrow(s: State, escrowId: string, status: EscrowStatus): State
    requires escrowId in s.escrows
  {
    s.(escrows := s.escrows[escrowId := s.escrows[escrowId].(status := status)])
  }

  // ----- the calls -----

  datatype Call =
    | Lock(tenantId: string, role: Role, assetId: string, escrowId: string, mode: ReleaseMode, unlockTimestamp: int,
      now: int, chainOk: bool)
    | Release(tenantId: string, role: Role, escrowId: string, assetId: string, chainOk: bool)
    | Cancel(tenantId: string, role: Role, escrowId: string, assetId: string, chainOk: bool)
    | WorkerRelease(escrowId: string, now: int, chainOk: bool)
    | Transition(tenantId: string, role: Role, assetId: string, target: AssetStatus)
    | InitiateTransfer(tenantId: string, role: Role, assetId: string)
    | PaymentApproved(tenantId: string, assetId: string)

  /** The transition matrix: targets and roles by current state; ARCHIVED and BURNED have no way out. */
  predicate Allowed(current: AssetStatus, target: AssetStatus) {
    match current
    case DRAFT => target.ACTIVE?
    case ACTIVE => target.SUSPENDED? || target.ARCHIVED? || target.BURNED?
    case SUSPENDED => target.ACTIVE?
    case _ => false
  }

  predicate MayTransition(current: AssetStatus, role: Role) {
    role.ADMIN? || (current.DRAFT? && role.OPERATOR?)
  }

  predicate Owns(s: State, tenantId: string, assetId: string) {
    assetId in s.assets && s.assets[assetId].tenantId == tenantId
  }

  /** Everything `lock` checks before it reaches the chain. */
  function LockRefusal(s: State, c: Call): Option<Error>
    requires c.Lock?
  {
    if c.role.READER? then Some(INSUFFICIENT_ROLE)
    else if c.unlockTimestamp <= c.now then Some(INVALID_UNLOCK_TIMESTAMP)
    else if !Owns(s, c.tenantId, c.assetId) then Some(ASSET_NOT_FOUND)
    else if !s.assets[c.assetId].status.ACTIVE? then Some(INVALID_ASSET_STATE)
    else if c.escrowId in s.escrows then Some(DUPLICATE_ESCROW_ID)
    else None
  }

  /** Everything `release` and `cancel` check before they reach the chain; the worker skips the role and mode checks. */
  function CloseRefusal(s: State, tenantId: string, escrowId: string, roleOk: bool, modeMatters: bool): Option<Error> {
    if !roleOk then Some(INSUFFICIENT_ROLE)
    else if escrowId !in s.escrows || s.escrows[escrowId].tenantId != tenantId then Some(ESCROW_NOT_FOUND)
    else if !IsOpen(s.escrows[escrowId]) then Some(ESCROW_ALREADY_CLOSED)
    else if modeMatters && s.escrows[escrowId].releaseMode.AUTO? then Some(RELEASE_MODE_MISMATCH)
    else None
  }

  /** After the chain call: the escrow row first, then whatever asset the request names. */
  function Close(s: State, escrowId: string, assetId: string, status: EscrowStatus): (State, Outcome)
    requires escrowId in s.escrows
  {
    var closed := SetEscrow(s, escrowId, status);
    if assetId in s.assets then (SetAsset(closed, assetId, ACTIVE), Done) else (closed, Failed(NO_SUCH_RECORD))
  }

  function Step(s: State, c: Call): (State, Outcome) {
    match c
    case Lock(tenantId, _, assetId, escrowId, mode, unlock, _, chainOk) =>
      if LockRefusal(s, c).Some? then (s, Failed(LockRefusal(s, c).value))
      else
        var created := s.(escrows := s.escrows[escrowId := Escrow(tenantId, assetId, mode, unlock, OPEN)]);
        if chainOk then (SetAsset(created, assetId, LOCKED_IN_ESCROW), Done) else (created, Failed(CHAIN_FAILURE))
    case Release(tenantId, role, escrowId, assetId, chainOk) =>
      var refusal := CloseRefusal(s, tenantId, escrowId, !role.READER?, true);
      if refusal.Some? then (s, Failed(refusal.value))
      else if !chainOk then (s, Failed(CHAIN_FAILURE))
      else Close(s, escrowId, assetId, RELEASED)
    case Cancel(tenantId, role, escrowId, assetId, chainOk) =>
      var refusal := CloseRefusal(s, tenantId, escrowId, role.ADMIN?, false);
      if refusal.Some? then (s, Failed(refusal.value))
      else if !chainOk then (s, Failed(CHAIN_FAILURE))
      else Close(s, escrowId, assetId, CANCELLED)
    case WorkerRelease(escrowId, now, chainOk) =>
      if !Due(s, escrowId, now) then (s, Failed(ESCROW_NOT_FOUND))
      else
        var outcome := if chainOk then Close(s, escrowId, s.escrows[escrowId].assetId, RELEASED)
            else (s, Failed(CHAIN_FAILURE));
        if outcome.1.Done? then outcome else (SetEscrow(outcome.0, escrowId, OPEN), outcome.1)
    case Transition(tenantId, role, assetId, target) =>
      if !Owns(s, tenantId, assetId) then (s, Failed(ASSET_NOT_FOUND))
      else if s.assets[assetId].status.LOCKED_IN_ESCROW? then (s, Failed(ASSET_LOCKED))
      else if !Allowed(s.assets[assetId].status, target) then (s, Failed(STATE_TRANSITION_FORBIDDEN))
      else if !MayTransition(s.assets[assetId].status, role) then (s, Failed(INSUFFICIENT_ROLE))
      else (SetAsset(s, assetId, target), Done)
    case InitiateTransfer(tenantId, role, assetId) =>
      if role.READER? then (s, Failed(INSUFFICIENT_ROLE))
      else if !Owns(s, tenantId, assetId) then (s, Failed(ASSET_NOT_FOUND))
      else if !s.assets[assetId].status.ACTIVE? then (s, Failed(INVALID_ASSET_STATE))
      else (SetAsset(s, assetId, AWAITING_PAYMENT), Done)
    case PaymentApproved(tenantId, assetId) =>
      if Owns(s, tenantId, assetId) && s.assets[assetId].status.AWAITING_PAYMENT?
      then (SetAsset(s, assetId, ACTIVE), Done)
      else (s, Failed(INVALID_ASSET_STATE))
  }

  /** What the release worker's query selects. */
  predicate Due(s: State, escrowId: string, now: int) {
    escrowId in s.escrows && s.escrows[escrowId].status.OPEN? && s.escrows[escrowId].releaseMode.AUTO?
    && s.escrows[escrowId].unlockTimestamp <= now
  }

  const BATCH_SIZE := 10

  /** At most ten due escrows, each once, in the order they unlock, and none left out that unlocks before one of
      them. */
  ghost predicate IsBatch(s: State, now: int, batch: seq<string>) {
    && |batch| <= BATCH_SIZE
    && (forall i :: 0 <= i < |batch| ==> Due(s, batch[i], now))
    && (forall i, j :: 0 <= i < j < |batch| ==> batch[i] != batch[j])
    && (forall i, j :: 0 <= i < j < |batch| ==>
        s.escrows[batch[i]].unlockTimestamp
        <= s.escrows[batch[j]].unlockTimestamp)
    && (forall e :: Due(s, e, now) && e !in batch ==>
          |batch| == BATCH_SIZE && forall i :: 0 <= i < |batch| ==>
            s.escrows[batch[i]].unlockTimestamp <= s.escrows[e].unlockTimestamp)
  }

  // ----- the facets over the two tables -----

  class Database {
    var assets: map<string, Asset>
    var escrows: map<string, Escrow>

    ghost function Tables(): State
      reads this
    {
      State(assets, escrows)
    }

    constructor (assets: map<string, Asset>)
      ensures Tables() == State(assets, map[])
    {
      this.assets := assets;
      escrows := map[];
    }

    method UpdateAsset(assetId: string, status: AssetStatus) returns (found: bool)
      modifies this`assets
      ensures found <==> assetId in old(assets)
      ensures Tables() == if found then SetAsset(old(Tables()), assetId, status) else old(Tables())
    {
      found := assetId in assets;
      if found {
        assets := assets[assetId := Asset(assets[assetId].tenantId, status)];
      }
    }

    method UpdateEscrow(escrowId: string, status: EscrowStatus)
      requires escrowId in escrows
      modifies this`escrows
      ensures Tables() == SetEscrow(old(Tables()), escrowId, status)
    {
      var e := escrows[escrowId];
      escrows := escrows[escrowId := Escrow(e.tenantId, e.assetId, e.releaseMode, e.unlockTimestamp, status)];
    }

    /** `EscrowFacet.lock`; chainOk is what the adapter's LOCK call did. */
    method LockEscrow(tenantId: string, role: Role, assetId: string, escrowId: string, mode: ReleaseMode,
                      unlockTimestamp: int, now: int, chainOk: bool) returns (r: Outcome)
      modifies this
      ensures (Tables(), r) == Step(old(Tables()), Lock(tenantId, role, assetId, escrowId, mode, unlockTimestamp, now,
              chainOk))
    {
      if role != ADMIN && role != OPERATOR {
        return Failed(INSUFFICIENT_ROLE);
      }
      if unlockTimestamp <= now {
        return Failed(INVALID_UNLOCK_TIMESTAMP);
      }
      if assetId !in assets || assets[assetId].tenantId != tenantId {
        return Failed(ASSET_NOT_FOUND);
      }
      if assets[assetId].status != ACTIVE {
        return Failed(INVALID_ASSET_STATE);
      }
      if escrowId in escrows {
        return Failed(DUPLICATE_ESCROW_ID);
      }
      escrows := escrows[escrowId := Escrow(tenantId, assetId, mode, unlockTimestamp, OPEN)];
      if !chainOk {
        return Failed(CHAIN_FAILURE);
      }
      var _ := UpdateAsset(assetId, LOCKED_IN_ESCROW);
      return Done;
    }

    /** `EscrowFacet.release`. */
    method ReleaseEscrow(isWorker: bool, tenantId: string, role: Role, escrowId: string, assetId: string, chainOk: bool)
      returns (r: Outcome)
      modifies this
      ensures var refusal := CloseRefusal(old(Tables()), tenantId, escrowId, isWorker || !role.READER?, !isWorker);
              (Tables(), r) == if refusal.Some? then (old(Tables()), Failed(refusal.value))
                               else if !chainOk then (old(Tables()), Failed(CHAIN_FAILURE))
                               else Close(old(Tables()), escrowId, assetId, RELEASED)
    {
      if !isWorker && role != ADMIN && role != OPERATOR {
        return Failed(INSUFFICIENT_ROLE);
      }
      if escrowId !in escrows || escrows[escrowId].tenantId != tenantId {
        return Failed(ESCROW_NOT_FOUND);
      }
      if escrows[escrowId].status == RELEASED || escrows[escrowId].status == CANCELLED {
        return Failed(ESCROW_ALREADY_CLOSED);
      }
      if !isWorker && escrows[escrowId].releaseMode == AUTO {
        return Failed(RELEASE_MODE_MISMATCH);
      }
      if !chainOk {
        return Failed(CHAIN_FAILURE);
      }
      UpdateEscrow(escrowId, RELEASED);
      var found := UpdateAsset(assetId, ACTIVE);
      return if found then Done else Failed(NO_SUCH_RECORD);
    }

    /** `EscrowFacet.cancel`. */
    method CancelEscrow(tenantId: string, role: Role, escrowId: string, assetId: string, chainOk: bool)
      returns (r: Outcome)
      modifies this
      ensures (Tables(), r) == Step(old(Tables()), Cancel(tenantId, role, escrowId, assetId, chainOk))
    {
      if role != ADMIN {
        return Failed(INSUFFICIENT_ROLE);
      }
      if escrowId !in escrows || escrows[escrowId].tenantId != tenantId {
        return Failed(ESCROW_NOT_FOUND);
      }
      if escrows[escrowId].status == RELEASED || escrows[escrowId].status == CANCELLED {
        return Failed(ESCROW_ALREADY_CLOSED);
      }
      if !chainOk {
        return Failed(CHAIN_FAILURE);
      }
      UpdateEscrow(escrowId, CANCELLED);
      var found := UpdateAsset(assetId, ACTIVE);
      return if found then Done else Failed(NO_SUCH_RECORD);
    }

    /** One turn of the release worker's loop. */
    method ReleaseOne(escrowId: string, now: int, chainOk: bool) returns (r: Outcome)
      requires Due(Tables(), escrowId, now)
      modifies this
      ensures (Tables(), r) == Step(old(Tables()), WorkerRelease(escrowId, now, chainOk))
    {
      ghost var before := Tables();
      var escrow := escrows[escrowId];
      UpdateEscrow(escrowId, PROCESSING);
      r := ReleaseEscrow(true, escrow.tenantId, ADMIN, escrowId, escrow.assetId, chainOk);
      MarkingIsOverwritten(before, escrowId, escrow.assetId);
      if !r.Done? {
        UpdateEscrow(escrowId, OPEN);
      }
    }

    /** The open automatic escrow of the set that unlocks first. */
    method Earliest(todo: set<string>) returns (first: string)
      requires todo != {} && forall e <- todo :: e in escrows
      ensures first in todo && forall e <- todo :: escrows[first].unlockTimestamp <= escrows[e].unlockTimestamp
    {
      first :| first in todo;
      var rest := todo - {first};
      while rest != {}
        invariant rest <= todo && first in todo
        invariant forall e <- todo - rest :: escrows[first].unlockTimestamp <= escrows[e].unlockTimestamp
        decreases rest
      {
        var e :| e in rest;
        if escrows[e].unlockTimestamp < escrows[first].unlockTimestamp {
          first := e;
        }
        rest := rest - {e};
      }
    }

    /** The worker's query: the ten that unlock first among those that are due. */
    method FetchExpired(now: int) returns (batch: seq<string>)
      ensures IsBatch(Tables(), now, batch) && |batch| <= 10
    {
      batch := [];
      var due := set e | e in escrows && Due(State(assets, escrows), e, now);
      var todo := due;
      while |batch| < BATCH_SIZE && todo != {}
        invariant |batch| <= BATCH_SIZE && todo <= due
        invariant forall e :: e in due <==> e in todo || e in batch
        invariant forall e <- todo :: e !in batch
        invariant forall i, j :: 0 <= i < j < |batch| ==> batch[i] != batch[j]
        invariant forall i :: 0 <= i < |batch| ==> batch[i] in escrows
        invariant forall i, j :: 0 <= i < j < |batch| ==>
                  escrows[batch[i]].unlockTimestamp
                  <= escrows[batch[j]].unlockTimestamp
        invariant forall i, e :: 0 <= i < |batch| && e in todo ==>
                  escrows[batch[i]].unlockTimestamp <= escrows[e].unlockTimestamp
        decreases todo
      {
        var e := Earliest(todo);
        batch := batch + [e];
        todo := todo - {e};
      }
    }

    /** `EscrowReleaseWorker.processReleases`: fetch a batch, then mark, release and revert on failure, one by one. */
    method ProcessReleases(now: int, chainOk: string -> bool)
      returns (released: nat, failed: nat, ghost batch: seq<string>)
      modifies this
      ensures IsBatch(old(Tables()), now, batch)
      ensures Tables() == WorkerRun(old(Tables()), batch, now, chainOk)
      ensures released + failed == |batch|
      ensures released == |WorkerDone(old(Tables()), batch, now, chainOk)|
    {
      var todo := FetchExpired(now);
      batch := todo;
      released, failed := 0, 0;
      ghost var start := Tables();
      for i := 0 to |todo|
        invariant Tables() == WorkerRun(start, todo[..i], now, chainOk)
        invariant released + failed == i
        invariant released == |WorkerDone(start, todo[..i], now, chainOk)|
        invariant forall j :: i <= j < |todo| ==> Due(Tables(), todo[j], now)
      {
        assert todo[..i + 1][..i] == todo[..i];
        ghost var before := Tables();
        var r := ReleaseOne(todo[i], now, chainOk(todo[i]));
        if r.Done? {
          released := released + 1;
        } else {
          failed := failed + 1;
        }
        forall j | i + 1 <= j < |todo| ensures Due(Tables(), todo[j], now) {
          WorkerTouchesOneEscrow(before, todo[i], todo[j], now, chainOk(todo[i]));
        }
      }
      assert todo[..|todo|] == todo;
    }

    /** `LifecycleFacet.transition`. */
    method TransitionAsset(tenantId: string, role: Role, assetId: string, target: AssetStatus) returns (r: Outcome)
      modifies this
      ensures (Tables(), r) == Step(old(Tables()), Transition(tenantId, role, assetId, target))
    {
      if assetId !in assets || assets[assetId].tenantId != tenantId {
        return Failed(ASSET_NOT_FOUND);
      }
      var current := assets[assetId].status;
      if current == LOCKED_IN_ESCROW {
        return Failed(ASSET_LOCKED);
      }
      var rules: map<AssetStatus, (set<AssetStatus>, set<Role>)> := map[
        DRAFT := ({ACTIVE}, {ADMIN, OPERATOR}),
        ACTIVE := ({SUSPENDED, ARCHIVED, BURNED}, {ADMIN}),
        SUSPENDED := ({ACTIVE}, {ADMIN})
      ];
      if current !in rules || target !in rules[current].0 {
        return Failed(STATE_TRANSITION_FORBIDDEN);
      }
      if role !in rules[current].1 {
        return Failed(INSUFFICIENT_ROLE);
      }
      var _ := UpdateAsset(assetId, target);
      return Done;
    }

    /** The status step of `TransferRegistryFacet.initiateTransfer`. */
    method StartTransfer(tenantId: string, role: Role, assetId: string) returns (r: Outcome)
      modifies this
      ensures (Tables(), r) == Step(old(Tables()), InitiateTransfer(tenantId, role, assetId))
    {
      if role != ADMIN && role != OPERATOR {
        return Failed(INSUFFICIENT_ROLE);
      }
      if assetId !in assets || assets[assetId].tenantId != tenantId {
        return Failed(ASSET_NOT_FOUND);
      }
      if assets[assetId].status != ACTIVE {
        return Failed(INVALID_ASSET_STATE);
      }
      var _ := UpdateAsset(assetId, AWAITING_PAYMENT);
      return Done;
    }

    /** The status step of the billing webhook for an approved payment. */
    method ConfirmPayment(tenantId: string, assetId: string) returns (r: Outcome)
      modifies this
      ensures (Tables(), r) == Step(old(Tables()), PaymentApproved(tenantId, assetId))
    {
      if assetId in assets && assets[assetId].tenantId == tenantId && assets[assetId].status == AWAITING_PAYMENT {
        var _ := UpdateAsset(assetId, ACTIVE);
        return Done;
      }
      return Failed(INVALID_ASSET_STATE);
    }
  }

  lemma MarkingIsOverwritten(s: State, escrowId: string, assetId: string)
    requires escrowId in s.escrows
    ensures Close(SetEscrow(s, escrowId, PROCESSING), escrowId, assetId, RELEASED)
            == Close(s, escrowId, assetId, RELEASED)
    ensures SetEscrow(SetEscrow(s, escrowId, PROCESSING), escrowId, OPEN) == SetEscrow(s, escrowId, OPEN)
  {
    forall status
      ensures SetEscrow(SetEscrow(s, escrowId, PROCESSING), escrowId, status) == SetEscrow(s, escrowId, status)
    {
      assert SetEscrow(SetEscrow(s, escrowId, PROCESSING), escrowId, status).escrows
          == SetEscrow(s, escrowId, status).escrows;
    }
  }

  lemma WorkerTouchesOneEscrow(s: State, escrowId: string, other: string, now: int, chainOk: bool)
    requires other != escrowId && Due(s, other, now)
    ensures Due(Step(s, WorkerRelease(escrowId, now, chainOk)).0, other, now)
  {
  }

  function WorkerRun(s: State, batch: seq<string>, now: int, chainOk: string -> bool): State {
    if batch == [] then s
    else
      var n := |batch| - 1;
      Step(WorkerRun(s, batch[..n], now, chainOk), WorkerRelease(batch[n], now, chainOk(batch[n]))).0
  }

  /** The escrows of the batch that the worker released. */
  function WorkerDone(s: State, batch: seq<string>, now: int, chainOk: string -> bool): seq<string> {
    if batch == [] then []
    else
      var n := |batch| - 1;
      WorkerDone(s, batch[..n], now, chainOk)
      + if Step(WorkerRun(s, batch[..n], now, chainOk), WorkerRelease(batch[n], now, chainOk(batch[n]))).1.Done? then
        [batch[n]] else []
  }

  // ----- the cross-component invariant -----

  /** The open escrows that name an asset. */
  function OpenFor(s: State, assetId: string): set<string> {
    set e | e in s.escrows && IsOpen(s.escrows[e]) && s.escrows[e].assetId == assetId
  }

  /** An asset is locked exactly when one open escrow names it, and otherwise none does. */
  ghost predicate Agrees(s: State) {
    && (forall e <- s.escrows :: IsOpen(s.escrows[e]) ==>
          s.escrows[e].assetId in s.assets && s.assets[s.escrows[e].assetId].status.LOCKED_IN_ESCROW?)
    && (forall e, f :: e in s.escrows && f in s.escrows && e != f && IsOpen(s.escrows[e]) && IsOpen(s.escrows[f])
          ==> s.escrows[e].assetId != s.escrows[f].assetId)
    && (forall a <- s.assets :: s.assets[a].status.LOCKED_IN_ESCROW? ==>
          exists e :: e in s.escrows && IsOpen(s.escrows[e]) && s.escrows[e].assetId == a)
  }

  lemma AgreementIsOnePerLockedAsset(s: State, a: string)
    requires Agrees(s) && a in s.assets
    ensures |OpenFor(s, a)| == if s.assets[a].status.LOCKED_IN_ESCROW? then 1 else 0
  {
    if s.assets[a].status.LOCKED_IN_ESCROW? {
      var e :| e in s.escrows && IsOpen(s.escrows[e]) && s.escrows[e].assetId == a;
      assert OpenFor(s, a) == {e};
    } else {
      assert OpenFor(s, a) == {};
    }
  }

  /** What the caller has to guarantee: a lock that gets as far as the chain succeeds there, and a release or cancel
      that goes through names the escrow's own asset. */
  predicate Proper(s: State, c: Call) {
    match c
    case Lock(_, _, _, _, _, _, _, chainOk) => LockRefusal(s, c).Some? || chainOk
    case Release(tenantId, role, escrowId, assetId, chainOk) =>
      CloseRefusal(s, tenantId, escrowId, !role.READER?, true).Some? || !chainOk
        || assetId == s.escrows[escrowId].assetId
    case Cancel(tenantId, role, escrowId, assetId, chainOk) =>
      CloseRefusal(s, tenantId, escrowId, role.ADMIN?, false).Some? || !chainOk
        || assetId == s.escrows[escrowId].assetId
    case _ => true
  }

  lemma ClosingOwnAssetKeepsAgreement(s: State, escrowId: string, status: EscrowStatus)
    requires Agrees(s) && escrowId in s.escrows && IsOpen(s.escrows[escrowId])
             && (status.RELEASED? || status.CANCELLED?)
    ensures Agrees(Close(s, escrowId, s.escrows[escrowId].assetId, status).0)
    ensures Close(s, escrowId, s.escrows[escrowId].assetId, status).1.Done?
  {
    var s' := Close(s, escrowId, s.escrows[escrowId].assetId, status).0;
    forall a | a in s'.assets && s'.assets[a].status.LOCKED_IN_ESCROW?
      ensures exists e :: e in s'.escrows && IsOpen(s'.escrows[e]) && s'.escrows[e].assetId == a
    {
      var e :| e in s.escrows && IsOpen(s.escrows[e]) && s.escrows[e].assetId == a;
      assert e in s'.escrows && IsOpen(s'.escrows[e]);
    }
  }

  lemma ClosingAnotherAssetBreaksAgreement(s: State, escrowId: string, assetId: string, status: EscrowStatus)
    requires Agrees(s) && escrowId in s.escrows && IsOpen(s.escrows[escrowId])
             && (status.RELEASED? || status.CANCELLED?)
    requires assetId != s.escrows[escrowId].assetId
    ensures !Agrees(Close(s, escrowId, assetId, status).0)
  {
    var s' := Close(s, escrowId, assetId, status).0;
    var own := s.escrows[escrowId].assetId;
    assert own in s'.assets && s'.assets[own].status.LOCKED_IN_ESCROW?;
  }

  lemma LockKeepsAgreementIffProper(s: State, c: Call)
    requires Agrees(s) && c.Lock?
    ensures Agrees(Step(s, c).0) <==> Proper(s, c)
  {
    var s' := Step(s, c).0;
    if LockRefusal(s, c).None? {
      assert s'.escrows[c.escrowId].assetId == c.assetId && IsOpen(s'.escrows[c.escrowId]);
      if c.chainOk {
        forall a | a in s'.assets && s'.assets[a].status.LOCKED_IN_ESCROW?
          ensures exists e :: e in s'.escrows && IsOpen(s'.escrows[e]) && s'.escrows[e].assetId == a
        {
          if a != c.assetId {
            var e :| e in s.escrows && IsOpen(s.escrows[e]) && s.escrows[e].assetId == a;
            assert e in s'.escrows && IsOpen(s'.escrows[e]);
          }
        }
      }
    }
  }

  lemma WorkerKeepsAgreement(s: State, c: Call)
    requires Agrees(s) && c.WorkerRelease?
    ensures Agrees(Step(s, c).0)
  {
    if Due(s, c.escrowId, c.now) {
      if c.chainOk {
        ClosingOwnAssetKeepsAgreement(s, c.escrowId, RELEASED);
      } else {
        assert SetEscrow(s, c.escrowId, OPEN) == s;
      }
    }
  }

  /** A status change that neither locks nor unlocks leaves the agreement alone. */
  lemma StatusChangeKeepsAgreement(s: State, assetId: string, status: AssetStatus)
    requires Agrees(s) && assetId in s.assets && !s.assets[assetId].status.LOCKED_IN_ESCROW?
             && !status.LOCKED_IN_ESCROW?
    ensures Agrees(SetAsset(s, assetId, status))
  {
    var s' := SetAsset(s, assetId, status);
    forall a | a in s'.assets && s'.assets[a].status.LOCKED_IN_ESCROW?
      ensures exists e :: e in s'.escrows && IsOpen(s'.escrows[e]) && s'.escrows[e].assetId == a
    {
      assert s.assets[a].status.LOCKED_IN_ESCROW?;
    }
  }

  /** Exactly the proper calls keep the asset table and the escrow table in agreement. */
  lemma CallKeepsAgreementIffProper(s: State, c: Call)
    requires Agrees(s)
    ensures Agrees(Step(s, c).0) <==> Proper(s, c)
  {
    match c
    case Lock(_, _, _, _, _, _, _, _) => LockKeepsAgreementIffProper(s, c);
    case Release(tenantId, role, escrowId, assetId, chainOk) =>
      if CloseRefusal(s, tenantId, escrowId, !role.READER?, true).None? && chainOk {
        if assetId == s.escrows[escrowId].assetId {
          ClosingOwnAssetKeepsAgreement(s, escrowId, RELEASED);
        } else {
          ClosingAnotherAssetBreaksAgreement(s, escrowId, assetId, RELEASED);
        }
      }
    case Cancel(tenantId, role, escrowId, assetId, chainOk) =>
      if CloseRefusal(s, tenantId, escrowId, role.ADMIN?, false).None? && chainOk {
        if assetId == s.escrows[escrowId].assetId {
          ClosingOwnAssetKeepsAgreement(s, escrowId, CANCELLED);
        } else {
          ClosingAnotherAssetBreaksAgreement(s, escrowId, assetId, CANCELLED);
        }
      }
    case WorkerRelease(_, _, _) => WorkerKeepsAgreement(s, c);
    case Transition(tenantId, role, assetId, target) =>
      if Step(s, c).1.Done? {
        StatusChangeKeepsAgreement(s, assetId, target);
      }
    case InitiateTransfer(_, _, assetId) =>
      if Step(s, c).1.Done? {
        StatusChangeKeepsAgreement(s, assetId, AWAITING_PAYMENT);
      }
    case PaymentApproved(_, assetId) =>
      if Step(s, c).1.Done? {
        StatusChangeKeepsAgreement(s, assetId, ACTIVE);
      }
  }

  // ----- runs -----

  function Run(s: State, calls: seq<Call>): State {
    if calls == [] then s else Step(Run(s, calls[..|calls| - 1]), calls[|calls| - 1]).0
  }

  predicate AllProper(s: State, calls: seq<Call>) {
    calls == [] || (AllProper(s, calls[..|calls| - 1]) && Proper(Run(s, calls[..|calls| - 1]), calls[|calls| - 1]))
  }

  lemma {:induction false} RunKeepsAgreement(s: State, calls: seq<Call>)
    requires Agrees(s) && AllProper(s, calls)
    ensures Agrees(Run(s, calls))
  {
    if calls == [] {
    } else {
      RunKeepsAgreement(s, calls[..|calls| - 1]);
      CallKeepsAgreementIffProper(Run(s, calls[..|calls| - 1]), calls[|calls| - 1]);
    }
  }

  /** From unlocked assets and no escrows, over every serial run of proper calls: an asset is LOCKED_IN_ESCROW exactly
      when one open escrow names it, and otherwise none does. */
  lemma LockedIffOneOpenEscrow(assets: map<string, Asset>, calls: seq<Call>, a: string)
    requires forall x <- assets :: !assets[x].status.LOCKED_IN_ESCROW?
    requires AllProper(State(assets, map[]), calls)
    requires a in Run(State(assets, map[]), calls).assets
    ensures var s := Run(State(assets, map[]), calls);
            |OpenFor(s, a)| == if s.assets[a].status.LOCKED_IN_ESCROW? then 1 else 0
  {
    RunKeepsAgreement(State(assets, map[]), calls);
    AgreementIsOnePerLockedAsset(Run(State(assets, map[]), calls), a);
  }

  predicate Terminal(status: AssetStatus) {
    status.BURNED? || status.ARCHIVED?
  }

  lemma CallKeepsEndStates(s: State, c: Call)
    requires Agrees(s) && Proper(s, c)
    ensures forall e <- s.escrows ::
            e in Step(s, c).0.escrows
            && (!IsOpen(s.escrows[e]) ==> Step(s, c).0.escrows[e] == s.escrows[e])
    ensures forall a <- s.assets ::
            a in Step(s, c).0.assets
            && (Terminal(s.assets[a].status) ==> Step(s, c).0.assets[a] == s.assets[a])
  {
    match c
    case Lock(_, _, _, _, _, _, _, _) =>
    case Release(_, _, _, _, _) =>
    case Cancel(_, _, _, _, _) =>
    case WorkerRelease(_, _, _) =>
    case Transition(_, _, _, _) =>
    case InitiateTransfer(_, _, _) =>
    case PaymentApproved(_, _) =>
  }

  /** Released and cancelled escrows never reopen, and burned and archived assets never leave those states. */
  lemma {:induction false} EndStatesAreFinal(s: State, calls: seq<Call>)
    requires Agrees(s) && AllProper(s, calls)
    ensures forall e <- s.escrows ::
            e in Run(s, calls).escrows
            && (!IsOpen(s.escrows[e]) ==> Run(s, calls).escrows[e] == s.escrows[e])
    ensures forall a <- s.assets ::
            a in Run(s, calls).assets
            && (Terminal(s.assets[a].status) ==> Run(s, calls).assets[a] == s.assets[a])
  {
    if calls == [] {
    } else {
      var before := Run(s, calls[..|calls| - 1]);
      EndStatesAreFinal(s, calls[..|calls| - 1]);
      RunKeepsAgreement(s, calls[..|calls| - 1]);
      CallKeepsEndStates(before, calls[|calls| - 1]);
    }
  }

  /** A release that names another asset does more than unlock it: it can bring a burned asset back. */
  lemma NamingAnotherAssetRevivesIt()
    ensures var s := State(map["a" := Asset("t", LOCKED_IN_ESCROW), "b" := Asset("t", BURNED)],
                           map["e" := Escrow("t", "a", MANUAL, 0, OPEN)]);
            Agrees(s) && Step(s, Release("t", ADMIN, "e", "b", true)).0.assets["b"].status == ACTIVE
  {
    var s := State(map["a" := Asset("t", LOCKED_IN_ESCROW), "b" := Asset("t", BURNED)],
                   map["e" := Escrow("t", "a", MANUAL, 0, OPEN)]);
    assert s.escrows["e"].assetId == "a" && IsOpen(s.escrows["e"]);
  }
}
