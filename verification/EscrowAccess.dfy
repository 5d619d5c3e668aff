/** Who can change which asset and which escrow. */
module EscrowAccess {
  import opened AssetEscrow

  // ----- tenants are kept apart -----

  /** A call made by a tenant other than this one; the release worker acts for every tenant. */
  predicate ByAnother(c: Call, tenantId: string) {
    !c.WorkerRelease? && c.tenantId != tenantId
  }

  /** A tenant's escrow stays as it is under every call of another tenant. */
  lemma OthersKeepEscrow(s: State, c: Call, e: string)
    requires e in s.escrows && ByAnother(c, s.escrows[e].tenantId)
    ensures e in Step(s, c).0.escrows && Step(s, c).0.escrows[e] == s.escrows[e]
  {
  }

  /** To another tenant an escrow looks as if it did not exist, and so does an asset. */
  lemma ForeignLooksMissing(s: State, c: Call)
    ensures (c.Release? || c.Cancel?) && c.escrowId in s.escrows && ByAnother(c, s.escrows[c.escrowId].tenantId) ==>
              Step(s, c) == (s, Step(State(s.assets, s.escrows - {c.escrowId}), c).1)
    ensures (c.Lock? || c.Transition? || c.InitiateTransfer? || c.PaymentApproved?)
            && c.assetId in s.assets && ByAnother(c, s.assets[c.assetId].tenantId) ==>
              Step(s, c) == (s, Step(State(s.assets - {c.assetId}, s.escrows), c).1)
  {
  }

  /** What a call of another tenant can do to an asset: nothing, unless it releases or cancels an escrow of its own and
      names this asset, which is then ACTIVE. */
  lemma ForeignCallChangesAssetIff(s: State, c: Call, a: string)
    requires a in s.assets && ByAnother(c, s.assets[a].tenantId)
    ensures a in Step(s, c).0.assets
    ensures Step(s, c).0.assets[a] != s.assets[a] <==> Closes(s, c) && c.assetId == a && s.assets[a].status != ACTIVE
    ensures Step(s, c).0.assets[a] != s.assets[a] ==> Step(s, c).0.assets[a] == Asset(s.assets[a].tenantId, ACTIVE)
  {
  }

  /** The call ends an escrow that is not closed yet: by the escrow's own tenant, in MANUAL mode by an administrator or
      operator and in any mode by an administrator's cancellation, with the chain's consent. */
  predicate Closes(s: State, c: Call) {
    && (c.Release? || c.Cancel?) && c.chainOk
    && c.escrowId in s.escrows && s.escrows[c.escrowId].tenantId == c.tenantId
    && s.escrows[c.escrowId].status in {OPEN, PROCESSING}
    && (c.Release? ==> c.role in {ADMIN, OPERATOR} && s.escrows[c.escrowId].releaseMode == MANUAL)
    && (c.Cancel? ==> c.role == ADMIN)
  }

  /** A tenant can lift another tenant's suspension by releasing an escrow of its own. */
  lemma ForeignAssetCanBeActivated()
    ensures var s := State(map["a" := Asset("t", SUSPENDED), "b" := Asset("u", LOCKED_IN_ESCROW)],
                           map["e" := Escrow("u", "b", MANUAL, 0, OPEN)]);
            Step(s, Release("u", OPERATOR, "e", "a", true)).0.assets["a"] == Asset("t", ACTIVE)
  {
    var s := State(map["a" := Asset("t", SUSPENDED), "b" := Asset("u", LOCKED_IN_ESCROW)],
                   map["e" := Escrow("u", "b", MANUAL, 0, OPEN)]);
    ForeignCallChangesAssetIff(s, Release("u", OPERATOR, "e", "a", true), "a");
  }

  predicate OthersOnly(calls: seq<Call>, tenantId: string) {
    forall i :: 0 <= i < |calls| ==> ByAnother(calls[i], tenantId)
  }

  /** Over every run of other tenants' calls a tenant's escrow stays as it is. */
  lemma {:induction false} OthersNeverTouchEscrow(s: State, calls: seq<Call>, e: string)
    requires e in s.escrows && OthersOnly(calls, s.escrows[e].tenantId)
    ensures e in Run(s, calls).escrows && Run(s, calls).escrows[e] == s.escrows[e]
  {
    if calls == [] {
    } else {
      OthersNeverTouchEscrow(s, calls[..|calls| - 1], e);
      OthersKeepEscrow(Run(s, calls[..|calls| - 1]), calls[|calls| - 1], e);
    }
  }

  /** Over every run of other tenants' calls in which no release or cancellation names it, a tenant's asset stays as it
      is. */
  lemma {:induction false} OthersNeverTouchAsset(s: State, calls: seq<Call>, a: string)
    requires a in s.assets && OthersOnly(calls, s.assets[a].tenantId)
    requires forall i :: 0 <= i < |calls| && (calls[i].Release? || calls[i].Cancel?) ==> calls[i].assetId != a
    ensures a in Run(s, calls).assets && Run(s, calls).assets[a] == s.assets[a]
  {
    if calls == [] {
    } else {
      OthersNeverTouchAsset(s, calls[..|calls| - 1], a);
      ForeignCallChangesAssetIff(Run(s, calls[..|calls| - 1]), calls[|calls| - 1], a);
    }
  }

  // ----- who can close an escrow -----

  /** The status of one escrow after a release or a cancellation, and the asset it names. */
  lemma CloseDecidesIff(s: State, c: Call)
    requires c.Release? || c.Cancel?
    ensures Step(s, c).0 != s <==> Closes(s, c)
    ensures Closes(s, c) ==>
              var s' := Step(s, c).0;
              && s'.escrows == s.escrows[c.escrowId := s.escrows[c.escrowId].(status := if c.Release? then RELEASED
                                                                                        else CANCELLED)]
              && s'.assets == (if c.assetId in s.assets
                               then s.assets[c.assetId := Asset(s.assets[c.assetId].tenantId, ACTIVE)] else s.assets)
    ensures Step(s, c).1.Done? <==> Closes(s, c) && c.assetId in s.assets
  {
    if Closes(s, c) {
      assert Step(s, c).0.escrows[c.escrowId].status in {RELEASED, CANCELLED};
    }
  }

  /** The worker releases the escrows that are AUTO, open and due and whose asset exists, if the chain agrees; any other
      attempt leaves the tables as they are. */
  lemma WorkerDecidesIff(s: State, c: Call)
    requires c.WorkerRelease?
    ensures Step(s, c).1.Done? <==> Step(s, c).0 != s
    ensures Step(s, c).0 != s <==> c.chainOk && WorkerMay(s, c) && s.escrows[c.escrowId].assetId in s.assets
    ensures Step(s, c).0 != s ==>
              var s', e := Step(s, c).0, s.escrows[c.escrowId];
              && s'.escrows == s.escrows[c.escrowId := e.(status := RELEASED)]
              && s'.assets == s.assets[e.assetId := Asset(s.assets[e.assetId].tenantId, ACTIVE)]
  {
    if WorkerMay(s, c) {
      var e := s.escrows[c.escrowId];
      assert SetEscrow(s, c.escrowId, OPEN) == s;
      if c.chainOk && e.assetId in s.assets {
        assert Step(s, c).0.escrows[c.escrowId].status == RELEASED;
      } else if c.chainOk {
        assert SetEscrow(SetEscrow(s, c.escrowId, RELEASED), c.escrowId, OPEN).escrows == s.escrows;
      }
    }
  }

  predicate WorkerMay(s: State, c: Call)
    requires c.WorkerRelease?
  {
    && c.escrowId in s.escrows && s.escrows[c.escrowId].status == OPEN && s.escrows[c.escrowId].releaseMode == AUTO
    && s.escrows[c.escrowId].unlockTimestamp <= c.now
  }

  /** The call may close this escrow: its tenant's, or the worker's once it is due. */
  predicate MayClose(s: State, c: Call, e: string) {
    if c.WorkerRelease? then c.escrowId == e && c.chainOk && WorkerMay(s, c)
    else (c.Release? || c.Cancel?) && c.escrowId == e && Closes(s, c)
  }

  predicate Unclosed(s: State, e: string) {
    e in s.escrows && s.escrows[e].status in {OPEN, PROCESSING}
  }

  lemma CallClosesOnlyIfItMay(s: State, c: Call, e: string)
    requires Unclosed(s, e)
    ensures Unclosed(Step(s, c).0, e) || MayClose(s, c, e)
  {
  }

  /** Over every run: an open escrow that ends up closed was closed by a call that may close it. */
  lemma {:induction false} ClosedByOneWhoMay(s: State, calls: seq<Call>, e: string) returns (k: nat)
    requires Unclosed(s, e) && !Unclosed(Run(s, calls), e)
    ensures k < |calls| && MayClose(Run(s, calls[..k]), calls[k], e)
  {
    var before, last := calls[..|calls| - 1], calls[|calls| - 1];
    var now := Run(s, before);
    assert Run(s, calls) == Step(now, last).0;
    if Unclosed(now, e) {
      k := |calls| - 1;
      CallClosesOnlyIfItMay(now, last, e);
    } else {
      k := ClosedByOneWhoMay(s, before, e);
      assert before[..k] == calls[..k];
    }
  }

  /** The terms of an escrow never change. */
  lemma CallKeepsTerms(s: State, c: Call, e: string)
    requires e in s.escrows
    ensures e in Step(s, c).0.escrows && Step(s, c).0.escrows[e].(status := s.escrows[e].status) == s.escrows[e]
  {
  }

  lemma {:induction false} EscrowStays(s: State, calls: seq<Call>, e: string)
    requires e in s.escrows
    ensures e in Run(s, calls).escrows && Run(s, calls).escrows[e].(status := s.escrows[e].status) == s.escrows[e]
  {
    if calls == [] {
    } else {
      EscrowStays(s, calls[..|calls| - 1], e);
      CallKeepsTerms(Run(s, calls[..|calls| - 1]), calls[|calls| - 1], e);
    }
  }

  // ----- who can lock, move, transfer and pay -----

  /** A lock creates its escrow if and only if an administrator or operator asks for an ACTIVE asset of the tenant's
      own, with an unlock time still to come and a new escrow id; the asset is locked if the chain agrees too. */
  lemma LockDecidesIff(s: State, c: Call)
    requires c.Lock?
    ensures Step(s, c).0 != s <==>
              && c.role in {ADMIN, OPERATOR} && c.unlockTimestamp > c.now
              && c.assetId in s.assets && s.assets[c.assetId] == Asset(c.tenantId, ACTIVE) && c.escrowId !in s.escrows
    ensures Step(s, c).0 != s ==>
              var s' := Step(s, c).0;
              && s'.escrows == s.escrows[c.escrowId := Escrow(c.tenantId, c.assetId, c.mode, c.unlockTimestamp, OPEN)]
              && s'.assets == (if c.chainOk then s.assets[c.assetId := Asset(c.tenantId, LOCKED_IN_ESCROW)]
                 else s.assets)
    ensures Step(s, c).1.Done? <==> Step(s, c).0 != s && c.chainOk
  {
    if LockRefusal(s, c).None? {
      assert c.escrowId in Step(s, c).0.escrows;
    }
  }

  /** The moves an asset can make by a transition, and who can make them. */
  predicate OnTheMatrix(from: AssetStatus, to: AssetStatus, role: Role) {
    || (from == DRAFT && to == ACTIVE && role in {ADMIN, OPERATOR})
    || (from == ACTIVE && to in {SUSPENDED, ARCHIVED, BURNED} && role == ADMIN)
    || (from == SUSPENDED && to == ACTIVE && role == ADMIN)
  }

  /** The three calls that move an asset's status alone go through if and only if the asset is the tenant's own and the
      move is one of those allowed. */
  lemma MoveDecidesIff(s: State, c: Call)
    requires c.Transition? || c.InitiateTransfer? || c.PaymentApproved?
    ensures Step(s, c).1.Done? <==>
              && c.assetId in s.assets && s.assets[c.assetId].tenantId == c.tenantId
              && match c
                 case Transition(_, role, _, target) => OnTheMatrix(s.assets[c.assetId].status, target, role)
                 case InitiateTransfer(_, role, _) => s.assets[c.assetId].status == ACTIVE && role in {ADMIN, OPERATOR}
                 case PaymentApproved(_, _) => s.assets[c.assetId].status == AWAITING_PAYMENT
                 case _ => false
    ensures Step(s, c).0 == if Step(s, c).1.Done? then State(s.assets[c.assetId := Asset(c.tenantId, Moved(c))],
            s.escrows)
                            else s
  {
  }

  function Moved(c: Call): AssetStatus {
    match c
    case Transition(_, _, _, target) => target
    case InitiateTransfer(_, _, _) => AWAITING_PAYMENT
    case _ => ACTIVE
  }
}
