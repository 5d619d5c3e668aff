/** The event log and the pending-transaction table, and every single database write the anchor queue and the retry
    worker make on them. Pending rows are never deleted, so a row's id is its place in creation order. */
module AnchorTables {
  import opened Common

  datatype EventStatus = PENDING | APPROVED | REJECTED | PENDING_FUNDS

  datatype Event = Event(tenantId: string, assetId: string, status: EventStatus, signatureHash: Option<string>,
    dltTxId: Option<string>)

  datatype TxType = ANCHOR | ESCROW_CREATE | ESCROW_RELEASE | ESCROW_CANCEL | TRANSFER

  datatype TxStatus = PENDING | PROCESSING | FAILED | SUCCESS | DLQ

  datatype Pending = Pending(
    tenantId: string,
    txRef: string,
    txType: TxType,
    chain: string,
    status: TxStatus,
    attemptCount: nat,
    maxAttempts: int,
    nextRetryAt: Option<int>,
    isDlq: bool
  )

  datatype Tables = Tables(events: map<string, Event>, pending: seq<Pending>)

  const PROCESSING_MARK := "PROCESSING"
  const RETRY_MARK := "RETRY_QUEUED"
  const DEFAULT_MAX_ATTEMPTS := 5
  const BASE_DELAY_MS := 60000
  const MAX_DELAY_MS := 3600000
  const BATCH := 20

  /** A transaction id of some chain; no adapter hands out one of the two markers. */
  predicate ChainId(txId: string) {
    txId != PROCESSING_MARK && txId != RETRY_MARK
  }

  predicate Anchored(e: Event) {
    e.dltTxId.Some? && ChainId(e.dltTxId.value)
  }

  /** Waiting for an anchor-queue worker. */
  predicate Unclaimed(e: Event) {
    e.dltTxId == None || e.dltTxId == Some(RETRY_MARK)
  }

  predicate Claimable(e: Event) {
    (e.status.APPROVED? || e.status.PENDING_FUNDS?) && Unclaimed(e) && e.signatureHash.Some?
  }

  // ----- writes of the anchor queue -----

  function Claim(events: map<string, Event>, ids: set<string>): (r: map<string, Event>)
    ensures r.Keys == events.Keys
  {
    map id <- events :: if id in ids && Unclaimed(events[id]) then events[id].(dltTxId := Some(PROCESSING_MARK))
      else events[id]
  }

  /** `update … dltTxId: txId`, whatever the column holds. */
  function WriteTxId(events: map<string, Event>, id: string, txId: string): map<string, Event>
    requires id in events
  {
    events[id := events[id].(dltTxId := Some(txId))]
  }

  /** `updateMany … where dltTxId = 'PROCESSING'`: nothing happens when the column holds something else. */
  function UnlessMoved(events: map<string, Event>, id: string, e: Event): map<string, Event> {
    if id in events && events[id].dltTxId == Some(PROCESSING_MARK) then events[id := e] else events
  }

  function ReturnForFunds(events: map<string, Event>, id: string): map<string, Event> {
    if id in events then UnlessMoved(events, id, events[id].(dltTxId := None, status := PENDING_FUNDS)) else events
  }

  function MarkForRetry(events: map<string, Event>, id: string): map<string, Event> {
    if id in events then UnlessMoved(events, id, events[id].(dltTxId := Some(RETRY_MARK))) else events
  }

  function NewPending(tenant: string, txRef: string, txType: TxType, chain: string): Pending {
    Pending(tenant, txRef, txType, chain, TxStatus.PENDING, 0, DEFAULT_MAX_ATTEMPTS, None, false)
  }

  // ----- writes of the retry worker -----

  predicate Lockable(status: TxStatus) {
    status.PENDING? || status.FAILED?
  }

  /** What the fetch at time `now` selects. */
  predicate Due(p: Pending, now: int) {
    Lockable(p.status) && !p.isDlq && (p.nextRetryAt.None? || p.nextRetryAt.value <= now)
  }

  function Lock(p: Pending): Pending {
    p.(status := PROCESSING)
  }

  /** The success transaction also writes the event of an ANCHOR row; a missing event rolls all of it back. */
  predicate SuccessThrows(events: map<string, Event>, p: Pending, txId: string) {
    p.txType.ANCHOR? && txId != "" && p.txRef !in events
  }

  /** Row `p` once an execution that started from `snapshot` has succeeded. */
  function Succeed(p: Pending, snapshot: Pending): Pending {
    p.(status := SUCCESS, attemptCount := snapshot.attemptCount + 1)
  }

  function EventsAfterSuccess(events: map<string, Event>, p: Pending, txId: string): map<string, Event>
    requires !SuccessThrows(events, p, txId)
  {
    if p.txType.ANCHOR? && txId != "" then WriteTxId(events, p.txRef, txId) else events
  }

  function Pow2(n: nat): (r: nat)
    ensures r >= 1
  {
    if n == 0 then 1 else 2 * Pow2(n - 1)
  }

  /** The wait after the n-th failed attempt. */
  function Delay(n: nat): nat
    requires n >= 1
  {
    var delay := BASE_DELAY_MS * Pow2(n - 1);
    if delay < MAX_DELAY_MS then delay else MAX_DELAY_MS
  }

  function Fail(p: Pending, snapshot: Pending, critical: bool, now: int): Pending {
    var attempts := snapshot.attemptCount + 1;
    if critical || attempts >= snapshot.maxAttempts then p.(status := DLQ, isDlq := true, attemptCount := attempts)
    else p.(status := FAILED, attemptCount := attempts, nextRetryAt := Some(now + Delay(attempts)))
  }

  // ----- what the errors say -----

  const CRITICAL_ERROR_PATTERNS := [
    "invalid signature", "insufficient funds", "insufficient balance", "unauthorized", "not authorized",
    "invalid triple proof", "sender does not match", "invalid address", "invalid amount", "escrow not found",
    "already released", "already cancelled"]

  predicate IsCriticalError(message: string) {
    exists i :: 0 <= i < |CRITICAL_ERROR_PATTERNS| && Includes(Lower(message), CRITICAL_ERROR_PATTERNS[i])
  }

  /** The anchor queue's own test, which is case-sensitive. */
  predicate LacksFunds(message: string) {
    Includes(message, "Insufficient funds") || Includes(message, "PENDING_FUNDS")
  }
}
