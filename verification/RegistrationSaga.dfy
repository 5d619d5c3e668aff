/** The registration sagas: reserve one credit, do the work, consume the credit; the dependent saga releases it again
    when the work or the consume fails. No transaction encloses the calls, so sagas interleave, crash in between and are
    retried. */
module RegistrationSaga {
  import opened Common
  import opened LedgerTable
  import opened CreditLedger
  import opened CreditLedgerProofs
  import CreditTotals

  /** Who registers, and under which keys the calls of the saga are made. */
  datatype Plan = Plan(tenant: string, user: string, reserveKey: string, consumeKey: string, releaseKey: Option<string>)

  datatype Role = RESERVING | CONSUMING | RELEASING

  /** `consumeForAssetRegistration` and `consumeForDependentRegistration`: the caller's key, and the key plus
      ":consume". */
  function RegistrationPlan(tenant: string, user: string, key: string): Plan {
    Plan(tenant, user, key, key + ":consume", None)
  }

  /** The credit saga of a dependent's registration: three keys made from one. */
  function DependentPlan(tenant: string, user: string, base: string): Plan {
    Plan(tenant, user, base + ":reserve", base + ":consume", Some(base + ":release"))
  }

  function KeyOf(p: Plan, role: Role): Option<string> {
    match role
    case RESERVING => Some(p.reserveKey)
    case CONSUMING => Some(p.consumeKey)
    case RELEASING => p.releaseKey
  }

  function CallOf(p: Plan, role: Role): Call
    requires KeyOf(p, role).Some?
  {
    match role
    case RESERVING => Reserve(p.tenant, Some(p.user), 1, p.reserveKey)
    case CONSUMING => Consume(p.tenant, Some(p.user), 1, p.consumeKey)
    case RELEASING => Release(p.tenant, Some(p.user), 1, p.releaseKey.value)
  }

  // ----- what a first registration comes to -----

  predicate Unused(rows: seq<Entry>, tenant: string, key: string) {
    forall i :: 0 <= i < |rows| && rows[i].tenantId == tenant ==> rows[i].idempotencyKey != Some(key)
  }

  /** An existing tenant's real user, and keys that no call of the tenant has used. */
  ghost predicate FirstTry(tenants: set<string>, rows: seq<Entry>, tenant: string, user: string, reserveKey: string,
                           nextKey: string) {
    && Sound(rows) && tenant in tenants && user != "" && !Blank(reserveKey) && !Blank(nextKey)
    && reserveKey != nextKey && Unused(rows, tenant, reserveKey) && Unused(rows, tenant, nextKey)
  }

  /** What a saga moved: one more credit consumed than before, or one more released and nothing else. */
  function Spent(b: Balance): Balance {
    b.(available := b.available - 1, consumed := b.consumed + 1, entryCount := b.entryCount + 2)
  }

  function GivenBack(b: Balance): Balance {
    b.(released := b.released + 1, entryCount := b.entryCount + 2)
  }

  /** One of the saga's calls, for one credit, under an unused key. */
  predicate First(tenants: set<string>, rows: seq<Entry>, tenant: string, user: string, c: Call) {
    && (c.Reserve? || c.Consume? || c.Release?) && c.tenant == tenant && c.user == Some(user) && c.amount == 1
    && tenant in tenants && user != "" && !Blank(c.key) && Unused(rows, tenant, c.key)
  }

  lemma GoesThrough(tenants: set<string>, rows: seq<Entry>, tenant: string, user: string, c: Call)
    requires First(tenants, rows, tenant, user, c)
    requires if c.Reserve? then Available(rows, tenant, Some(user)) >= 1 else Reserved(rows, tenant, Some(user)) >= 1
    ensures Answer(tenants, rows, c).Ok? && After(tenants, rows, c) == rows + [RowOf(c)]
    ensures Projection(After(tenants, rows, c), tenant, Some(user))
            == CreditTotals.Plus(Projection(rows, tenant, Some(user)), CreditTotals.Effect(c))
  {
    CreditTotals.WritesIff(tenants, rows, c);
    CreditTotals.ShortIff(tenants, rows, c);
    CreditTotals.TableGrowsByOneRow(tenants, rows, c);
    CreditTotals.CallMovesItsScopes(tenants, rows, c, tenant, Some(user));
  }

  lemma ReservesNothing(tenants: set<string>, rows: seq<Entry>, tenant: string, user: string, key: string)
    requires First(tenants, rows, tenant, user, Reserve(tenant, Some(user), 1, key))
    requires Available(rows, tenant, Some(user)) < 1
    ensures var c := Reserve(tenant, Some(user), 1, key);
            Answer(tenants, rows, c).Err? && After(tenants, rows, c) == rows
  {
    var c := Reserve(tenant, Some(user), 1, key);
    CreditTotals.WritesIff(tenants, rows, c);
    CreditTotals.ShortIff(tenants, rows, c);
    CreditTotals.TableGrowsByOneRow(tenants, rows, c);
  }

  lemma StillUnused(rows: seq<Entry>, e: Entry, tenant: string, key: string)
    requires Unused(rows, tenant, key) && e.idempotencyKey != Some(key)
    ensures Unused(rows + [e], tenant, key)
  {
  }

  lemma FirstTryIsFirst(tenants: set<string>, rows: seq<Entry>, tenant: string, user: string, reserveKey: string,
                        c: Call)
    requires (c.Consume? || c.Release?) && c.tenant == tenant && c.user == Some(user) && c.amount == 1
    requires FirstTry(tenants, rows, tenant, user, reserveKey, c.key)
    ensures First(tenants, rows, tenant, user, Reserve(tenant, Some(user), 1, reserveKey))
    ensures First(tenants, rows, tenant, user, c) && Reserved(rows, tenant, Some(user)) >= 0
  {
  }

  /** After the reservation the other key is still unused, and a credit is there to be consumed or released. */
  lemma FirstTryGoesOn(tenants: set<string>, rows: seq<Entry>, tenant: string, user: string, reserveKey: string,
                       c: Call)
    requires c.Consume? || c.Release?
    requires c.tenant == tenant && c.user == Some(user) && c.amount == 1
    requires FirstTry(tenants, rows, tenant, user, reserveKey, c.key)
    requires Projection(rows, tenant, Some(user)).available >= 1
    ensures Answer(tenants, rows, Reserve(tenant, Some(user), 1, reserveKey)).Ok?
    ensures var reserved := After(tenants, rows, Reserve(tenant, Some(user), 1, reserveKey));
            && Answer(tenants, reserved, c).Ok?
            && Projection(After(tenants, reserved, c), tenant, Some(user))
               == if c.Consume? then Spent(Projection(rows, tenant, Some(user)))
                  else GivenBack(Projection(rows, tenant, Some(user)))
  {
    var reserve := Reserve(tenant, Some(user), 1, reserveKey);
    FirstTryIsFirst(tenants, rows, tenant, user, reserveKey, c);
    GoesThrough(tenants, rows, tenant, user, reserve);
    StillUnused(rows, RowOf(reserve), tenant, c.key);
    GoesThrough(tenants, rows + [RowOf(reserve)], tenant, user, c);
    EffectsAddUp(Projection(rows, tenant, Some(user)), reserve, c);
  }

  lemma EffectsAddUp(b: Balance, reserve: Call, c: Call)
    requires reserve.Reserve? && reserve.amount == 1 && (c.Consume? || c.Release?) && c.amount == 1
    ensures CreditTotals.Plus(CreditTotals.Plus(b, CreditTotals.Effect(reserve)), CreditTotals.Effect(c))
            == if c.Consume? then Spent(b) else GivenBack(b)
  {
  }

  // ----- the sagas themselves -----

  /** Where the first refusal, or the whole saga, leaves the ledger, and what it answers. */
  ghost predicate RegistrationRun(tenants: set<string>, before: seq<Entry>, after: seq<Entry>, p: Plan,
                                  r: Result<Summary, LedgerError>) {
    var reserved := After(tenants, before, CallOf(p, RESERVING));
    if Answer(tenants, before, CallOf(p, RESERVING)).Err? then
      after == before && r == Err(Answer(tenants, before, CallOf(p, RESERVING)).error)
    else if Answer(tenants, reserved, CallOf(p, CONSUMING)).Err? then
      after == reserved && r == Err(Answer(tenants, reserved, CallOf(p, CONSUMING)).error)
    else
      after == After(tenants, reserved, CallOf(p, CONSUMING)) && r == Ok(SummaryOf(after, p.tenant, p.user))
  }

  /** `consumeForAssetRegistration` and `consumeForDependentRegistration` (they differ in the reference type only). */
  method ConsumeForRegistration(db: Table, tenant: string, user: string, key: string)
    returns (r: Result<Summary, LedgerError>)
    modifies db
    ensures db.tenants == old(db.tenants)
    ensures RegistrationRun(db.tenants, old(db.rows), db.rows, RegistrationPlan(tenant, user, key), r)
  {
    var reserved := ReserveCredits(db, tenant, Some(user), 1, key);
    if reserved.Err? {
      return Err(reserved.error);
    }
    var consumed := ConsumeReservedCredits(db, tenant, Some(user), 1, key + ":consume");
    if consumed.Err? {
      return Err(consumed.error);
    }
    var summary := GetSummary(db, tenant, user);
    return Ok(summary);
  }

  ghost predicate DependentRun(tenants: set<string>, before: seq<Entry>, after: seq<Entry>, p: Plan, upserted: bool,
                               registered: bool)
    requires p.releaseKey.Some?
  {
    var reserved := After(tenants, before, CallOf(p, RESERVING));
    if Answer(tenants, before, CallOf(p, RESERVING)).Err? then !registered && after == before
    else if upserted && Answer(tenants, reserved, CallOf(p, CONSUMING)).Ok? then
      registered && after == After(tenants, reserved, CallOf(p, CONSUMING))
    else !registered && after == After(tenants, reserved, CallOf(p, RELEASING))
  }

  /** The ledger calls of a dependent's registration; upserted says whether the work in between succeeded. What the
      release answers is ignored. */
  method RegisterDependent(db: Table, tenant: string, user: string, base: string, upserted: bool)
    returns (registered: bool)
    modifies db
    ensures db.tenants == old(db.tenants)
    ensures DependentRun(db.tenants, old(db.rows), db.rows, DependentPlan(tenant, user, base), upserted, registered)
  {
    var reserved := ReserveCredits(db, tenant, Some(user), 1, base + ":reserve");
    if reserved.Err? {
      return false;
    }
    if upserted {
      var consumed := ConsumeReservedCredits(db, tenant, Some(user), 1, base + ":consume");
      if consumed.Ok? {
        return true;
      }
    }
    var _ := ReleaseReservedCredits(db, tenant, Some(user), 1, base + ":release");
    return false;
  }

  /** A first registration under unused keys succeeds if and only if the user has a credit; it takes that credit, or
      leaves every balance and total of the user as it was. */
  lemma FirstRegistration(tenants: set<string>, before: seq<Entry>, after: seq<Entry>, tenant: string, user: string,
                          key: string, r: Result<Summary, LedgerError>)
    requires FirstTry(tenants, before, tenant, user, key, key + ":consume")
    requires RegistrationRun(tenants, before, after, RegistrationPlan(tenant, user, key), r)
    ensures var was := Projection(before, tenant, Some(user));
            && (r.Ok? <==> was.available >= 1)
            && Projection(after, tenant, Some(user)) == if was.available >= 1 then Spent(was) else was
  {
    if Projection(before, tenant, Some(user)).available < 1 {
      ReservesNothing(tenants, before, tenant, user, key);
    } else {
      FirstTryGoesOn(tenants, before, tenant, user, key, Consume(tenant, Some(user), 1, key + ":consume"));
    }
  }

  lemma FirstRunWithoutCredit(tenants: set<string>, before: seq<Entry>, after: seq<Entry>, p: Plan, upserted: bool,
                              registered: bool)
    requires p.releaseKey.Some? && FirstTry(tenants, before, p.tenant, p.user, p.reserveKey, p.consumeKey)
    requires DependentRun(tenants, before, after, p, upserted, registered)
    requires Projection(before, p.tenant, Some(p.user)).available < 1
    ensures !registered && after == before
  {
    ReservesNothing(tenants, before, p.tenant, p.user, p.reserveKey);
  }

  lemma FirstRunOfWork(tenants: set<string>, before: seq<Entry>, after: seq<Entry>, p: Plan, registered: bool)
    requires p.releaseKey.Some? && FirstTry(tenants, before, p.tenant, p.user, p.reserveKey, p.consumeKey)
    requires DependentRun(tenants, before, after, p, true, registered)
    requires Projection(before, p.tenant, Some(p.user)).available >= 1
    ensures registered && Projection(after, p.tenant, Some(p.user)) == Spent(Projection(before, p.tenant, Some(p.user)))
  {
    FirstTryGoesOn(tenants, before, p.tenant, p.user, p.reserveKey, CallOf(p, CONSUMING));
  }

  lemma FirstRunOfFailedWork(tenants: set<string>, before: seq<Entry>, after: seq<Entry>, p: Plan, registered: bool)
    requires p.releaseKey.Some? && FirstTry(tenants, before, p.tenant, p.user, p.reserveKey, p.releaseKey.value)
    requires DependentRun(tenants, before, after, p, false, registered)
    requires Projection(before, p.tenant, Some(p.user)).available >= 1
    ensures !registered
    ensures Projection(after, p.tenant, Some(p.user)) == GivenBack(Projection(before, p.tenant, Some(p.user)))
  {
    FirstTryGoesOn(tenants, before, p.tenant, p.user, p.reserveKey, CallOf(p, RELEASING));
  }

  /** A dependent's first registration succeeds if and only if the user has a credit and the work succeeds. It takes the
      credit; when only the work fails it gives the credit back; without a credit it writes nothing. */
  lemma FirstDependent(tenants: set<string>, before: seq<Entry>, after: seq<Entry>, tenant: string, user: string,
                       base: string, upserted: bool, registered: bool)
    requires FirstTry(tenants, before, tenant, user, base + ":reserve", base + ":consume")
    requires FirstTry(tenants, before, tenant, user, base + ":reserve", base + ":release")
    requires DependentRun(tenants, before, after, DependentPlan(tenant, user, base), upserted, registered)
    ensures var was := Projection(before, tenant, Some(user));
            && (registered <==> upserted && was.available >= 1)
            && (was.available < 1 ==> after == before)
            && (was.available >= 1 ==>
                  Projection(after, tenant, Some(user)) == if upserted then Spent(was) else GivenBack(was))
  {
    var p := DependentPlan(tenant, user, base);
    if Projection(before, tenant, Some(user)).available < 1 {
      FirstRunWithoutCredit(tenants, before, after, p, upserted, registered);
    } else if upserted {
      FirstRunOfWork(tenants, before, after, p, registered);
    } else {
      FirstRunOfFailedWork(tenants, before, after, p, registered);
    }
  }

  // ----- interleavings -----

  /** Where one attempt at a saga stands. An attempt that crashes or is refused stops for good; a retry is a new
      attempt. */
  datatype Progress = STARTED | RESERVED_OK | FAILING | COMPLETED_OK | STOPPED

  datatype Attempt = Attempt(plan: Plan, progress: Progress)

  datatype State = State(rows: seq<Entry>, attempts: map<nat, Attempt>)

  datatype Action =
    | Begin(id: nat, plan: Plan)
    | DoReserve(id: nat)
    | DoConsume(id: nat)
    | Fail(id: nat)
    | DoRelease(id: nat)
    | Crash(id: nat)
    | Other(call: Call)

  /** Plans belong to real users, and within a tenant a key serves one plan in one role. */
  ghost predicate Disciplined(plans: set<Plan>) {
    && (forall p <- plans ::
        p.user != "" && !Blank(p.consumeKey)
        && (p.releaseKey.Some? ==> !Blank(p.releaseKey.value)))
    && (forall p, q, r1, r2 :: p in plans && q in plans && SameKey(p, r1, q, r2) ==> p == q && r1 == r2)
  }

  predicate SameKey(p: Plan, r1: Role, q: Plan, r2: Role) {
    p.tenant == q.tenant && KeyOf(p, r1).Some? && KeyOf(p, r1) == KeyOf(q, r2)
  }

  /** Calls from elsewhere: grants, purchases, adjustments, revocations and bonuses under keys of their own. */
  ghost predicate Unrelated(plans: set<Plan>, c: Call) {
    && !c.Reserve? && !c.Consume? && !c.Release?
    && (c.Key().Some? ==> forall p, r :: p in plans && p.tenant == c.tenant ==> KeyOf(p, r) != c.Key())
  }

  ghost predicate Enabled(plans: set<Plan>, s: State, a: Action) {
    match a
    case Begin(id, plan) => id !in s.attempts && plan in plans
    case DoReserve(id) => id in s.attempts && s.attempts[id].progress == STARTED
    case DoConsume(id) => id in s.attempts && s.attempts[id].progress == RESERVED_OK
    case Fail(id) => id in s.attempts && s.attempts[id].progress == RESERVED_OK && s.attempts[id].plan.releaseKey.Some?
    case DoRelease(id) => id in s.attempts && s.attempts[id].progress == FAILING && s.attempts[id].plan.releaseKey.Some?
    case Crash(id) => id in s.attempts && s.attempts[id].progress in {STARTED, RESERVED_OK, FAILING}
    case Other(c) => Unrelated(plans, c)
  }

  function Next(tenants: set<string>, s: State, a: Action): State
    requires !a.Begin? && !a.Other? ==> a.id in s.attempts
    requires a.DoRelease? ==> s.attempts[a.id].plan.releaseKey.Some?
  {
    match a
    case Begin(id, plan) => s.(attempts := s.attempts[id := Attempt(plan, STARTED)])
    case DoReserve(id) =>
      var t := s.attempts[id];
      var c := CallOf(t.plan, RESERVING);
      State(After(tenants, s.rows, c),
            s.attempts[id := t.(progress := if Answer(tenants, s.rows, c).Ok? then RESERVED_OK else STOPPED)])
    case DoConsume(id) =>
      var t := s.attempts[id];
      var c := CallOf(t.plan, CONSUMING);
      State(After(tenants, s.rows, c),
            s.attempts[id := t.(progress := if Answer(tenants, s.rows, c).Ok? then COMPLETED_OK
                                            else if t.plan.releaseKey.Some? then FAILING else STOPPED)])
    case Fail(id) => s.(attempts := s.attempts[id := s.attempts[id].(progress := FAILING)])
    case DoRelease(id) =>
      var t := s.attempts[id];
      State(After(tenants, s.rows, CallOf(t.plan, RELEASING)), s.attempts[id := t.(progress := STOPPED)])
    case Crash(id) => s.(attempts := s.attempts[id := s.attempts[id].(progress := STOPPED)])
    case Other(c) => s.(rows := After(tenants, s.rows, c))
  }

  ghost predicate Legal(plans: set<Plan>, tenants: set<string>, s: State, actions: seq<Action>)
    decreases |actions|
  {
    actions == [] || (Enabled(plans, s, actions[0]) && Legal(plans, tenants, Next(tenants, s, actions[0]),
      actions[1..]))
  }

  ghost function Final(plans: set<Plan>, tenants: set<string>, s: State, actions: seq<Action>): State
    requires Legal(plans, tenants, s, actions)
    decreases |actions|
  {
    if actions == [] then s else Final(plans, tenants, Next(tenants, s, actions[0]), actions[1..])
  }

  // ----- what the ledger shows of the plans -----

  ghost predicate Did(rows: seq<Entry>, p: Plan, role: Role) {
    KeyOf(p, role).Some? && HasKey(rows, p.tenant, KeyOf(p, role).value)
  }

  ghost function Those(plans: set<Plan>, rows: seq<Entry>, tenant: string, user: string, role: Role): set<Plan> {
    set p | p in plans && p.tenant == tenant && p.user == user && Did(rows, p, role)
  }

  /** The user's plans that hold a reservation: reserved, and neither consumed nor released. */
  ghost function Pending(plans: set<Plan>, rows: seq<Entry>, tenant: string, user: string): set<Plan> {
    Those(plans, rows, tenant, user, RESERVING) - Those(plans, rows, tenant, user, CONSUMING)
      - Those(plans, rows, tenant, user, RELEASING)
  }

  /** The user's plans that were both consumed and released: each took one reservation more than it made. */
  ghost function Twice(plans: set<Plan>, rows: seq<Entry>, tenant: string, user: string): set<Plan> {
    Those(plans, rows, tenant, user, CONSUMING) * Those(plans, rows, tenant, user, RELEASING)
  }

  predicate OfPlan(e: Entry, p: Plan) {
    e.tenantId == p.tenant && e.idempotencyKey.Some?
    && (e.idempotencyKey == KeyOf(p, RESERVING) || e.idempotencyKey == KeyOf(p, CONSUMING)
        || e.idempotencyKey == KeyOf(p, RELEASING))
  }

  /** What the rows of one plan add to the available and reserved sums. */
  function PlanAvailable(p: Plan): Entry -> int {
    (e: Entry) => if OfPlan(e, p) then e.availableDelta else 0
  }

  function PlanReserved(p: Plan): Entry -> int {
    (e: Entry) => if OfPlan(e, p) then e.reservedDelta else 0
  }

  // ----- the invariant -----

  ghost predicate PlanFits(rows: seq<Entry>, p: Plan) {
    && (Did(rows, p, CONSUMING) || Did(rows, p, RELEASING) ==> Did(rows, p, RESERVING))
    && Sum(rows, PlanAvailable(p))
       == (if Did(rows, p, RELEASING) then 1 else 0) - (if Did(rows, p, RESERVING) then 1 else 0)
    && Sum(rows, PlanReserved(p))
       == (if Did(rows, p, RESERVING) then 1 else 0) - (if Did(rows, p, CONSUMING) then 1 else 0)
          - (if Did(rows, p, RELEASING) then 1 else 0)
  }

  ghost predicate UserFits(plans: set<Plan>, rows: seq<Entry>, t: string, u: string) {
    && Reserved(rows, t, Some(u))
       == |Those(plans, rows, t, u, RESERVING)| - |Those(plans, rows, t, u, CONSUMING)|
         - |Those(plans, rows, t, u, RELEASING)|
    && Amount(rows, t, Some(u), CONSUMED) == |Those(plans, rows, t, u, CONSUMING)|
  }

  ghost predicate TableFits(plans: set<Plan>, tenants: set<string>, rows: seq<Entry>) {
    && (forall i :: 0 <= i < |rows| ==> rows[i].tenantId in tenants)
    && (forall p <- plans :: PlanFits(rows, p))
    && (forall t, u :: u != "" ==> UserFits(plans, rows, t, u))
  }

  ghost predicate AttemptFits(plans: set<Plan>, rows: seq<Entry>, t: Attempt) {
    && t.plan in plans
    && (t.progress in {RESERVED_OK, FAILING, COMPLETED_OK} ==> Did(rows, t.plan, RESERVING))
    && (t.progress == COMPLETED_OK ==> Did(rows, t.plan, CONSUMING))
  }

  ghost predicate Inv(plans: set<Plan>, tenants: set<string>, s: State) {
    && Disciplined(plans)
    && TableFits(plans, tenants, s.rows)
    && (forall id <- s.attempts :: AttemptFits(plans, s.rows, s.attempts[id]))
  }

  // ----- one row more -----

  lemma DidAfter(plans: set<Plan>, rows: seq<Entry>, p: Plan, role: Role, q: Plan, r: Role)
    requires Disciplined(plans) && p in plans && q in plans && KeyOf(p, role).Some?
    ensures Did(rows + [RowOf(CallOf(p, role))], q, r) <==> Did(rows, q, r) || (q == p && r == role)
  {
    var e := RowOf(CallOf(p, role));
    AppendRow(rows, e);
    if q.tenant == p.tenant && KeyOf(q, r) == KeyOf(p, role) {
      assert SameKey(p, role, q, r);
    }
  }

  lemma RowIsOfItsPlan(plans: set<Plan>, p: Plan, role: Role, q: Plan)
    requires Disciplined(plans) && p in plans && q in plans && KeyOf(p, role).Some?
    ensures OfPlan(RowOf(CallOf(p, role)), q) <==> q == p
  {
    var e := RowOf(CallOf(p, role));
    if OfPlan(e, q) {
      var r := if e.idempotencyKey == KeyOf(q, RESERVING) then RESERVING
               else if e.idempotencyKey == KeyOf(q, CONSUMING) then CONSUMING else RELEASING;
      assert SameKey(p, role, q, r);
    }
  }

  lemma PlanRowFits(plans: set<Plan>, rows: seq<Entry>, p: Plan, role: Role, q: Plan)
    requires Disciplined(plans) && p in plans && q in plans && KeyOf(p, role).Some? && PlanFits(rows, q)
    requires !Did(rows, p, role) && (role != RESERVING ==> Did(rows, p, RESERVING))
    ensures PlanFits(rows + [RowOf(CallOf(p, role))], q)
  {
    var e := RowOf(CallOf(p, role));
    DidAfter(plans, rows, p, role, q, RESERVING);
    DidAfter(plans, rows, p, role, q, CONSUMING);
    DidAfter(plans, rows, p, role, q, RELEASING);
    RowIsOfItsPlan(plans, p, role, q);
    SumAppend(rows, e, PlanAvailable(q));
    SumAppend(rows, e, PlanReserved(q));
  }

  predicate Concerns(p: Plan, role: Role, t: string, u: string, r: Role) {
    r == role && t == p.tenant && u == p.user
  }

  lemma ThoseAfter(plans: set<Plan>, rows: seq<Entry>, p: Plan, role: Role, t: string, u: string, r: Role)
    requires Disciplined(plans) && p in plans && KeyOf(p, role).Some?
    ensures Those(plans, rows + [RowOf(CallOf(p, role))], t, u, r)
            == Those(plans, rows, t, u, r) + (if Concerns(p, role, t, u, r) then {p} else {})
  {
    var before, after := Those(plans, rows, t, u, r), Those(plans, rows + [RowOf(CallOf(p, role))], t, u, r);
    forall q ensures q in after <==> q in before || (q == p && Concerns(p, role, t, u, r)) {
      if q in plans {
        DidAfter(plans, rows, p, role, q, r);
      }
    }
  }

  lemma HowManyAfter(plans: set<Plan>, rows: seq<Entry>, p: Plan, role: Role, t: string, u: string, r: Role)
    requires Disciplined(plans) && p in plans && KeyOf(p, role).Some? && !Did(rows, p, role)
    ensures |Those(plans, rows + [RowOf(CallOf(p, role))], t, u, r)|
            == |Those(plans, rows, t, u, r)| + if Concerns(p, role, t, u, r) then 1 else 0
  {
    var before := Those(plans, rows, t, u, r);
    ThoseAfter(plans, rows, p, role, t, u, r);
    if Concerns(p, role, t, u, r) {
      assert p !in before;
      assert |before + {p}| == |before| + 1;
    } else {
      assert before + {} == before;
    }
  }

  lemma SumsAfter(rows: seq<Entry>, p: Plan, role: Role, t: string, u: string)
    requires KeyOf(p, role).Some? && p.user != "" && u != ""
    ensures var e := RowOf(CallOf(p, role));
            var mine := t == p.tenant && u == p.user;
            && Reserved(rows + [e], t, Some(u))
               == Reserved(rows, t, Some(u)) + (if !mine then 0 else if role == RESERVING then 1 else -1)
            && Amount(rows + [e], t, Some(u), CONSUMED)
               == Amount(rows, t, Some(u), CONSUMED) + if mine && role == CONSUMING then 1 else 0
  {
    SumAppend(rows, RowOf(CallOf(p, role)), ReservedIn(t, Some(u)));
    SumAppend(rows, RowOf(CallOf(p, role)), AmountIn(t, Some(u), CONSUMED));
  }

  lemma UserRowFits(plans: set<Plan>, rows: seq<Entry>, p: Plan, role: Role, t: string, u: string)
    requires Disciplined(plans) && p in plans && KeyOf(p, role).Some? && !Did(rows, p, role)
    requires u != "" && UserFits(plans, rows, t, u)
    ensures UserFits(plans, rows + [RowOf(CallOf(p, role))], t, u)
  {
    HowManyAfter(plans, rows, p, role, t, u, RESERVING);
    HowManyAfter(plans, rows, p, role, t, u, CONSUMING);
    HowManyAfter(plans, rows, p, role, t, u, RELEASING);
    SumsAfter(rows, p, role, t, u);
  }

  lemma {:induction false} PlanCallFits(plans: set<Plan>, tenants: set<string>, rows: seq<Entry>, p: Plan, role: Role)
    requires Disciplined(plans) && TableFits(plans, tenants, rows) && p in plans && KeyOf(p, role).Some?
    requires role != RESERVING ==> Did(rows, p, RESERVING)
    ensures TableFits(plans, tenants, After(tenants, rows, CallOf(p, role)))
  {
    var c := CallOf(p, role);
    if Writes(tenants, rows, c) {
      assert !Did(rows, p, role);
      forall q | q in plans ensures PlanFits(rows + [RowOf(c)], q) {
        PlanRowFits(plans, rows, p, role, q);
      }
      forall t, u | u != "" ensures UserFits(plans, rows + [RowOf(c)], t, u) {
        UserRowFits(plans, rows, p, role, t, u);
      }
    }
  }

  lemma UnrelatedRow(plans: set<Plan>, rows: seq<Entry>, c: Call, q: Plan)
    requires Unrelated(plans, c) && q in plans
    ensures forall r :: Did(rows + [RowOf(c)], q, r) <==> Did(rows, q, r)
    ensures !OfPlan(RowOf(c), q)
  {
    var e := RowOf(c);
    AppendRow(rows, e);
    assert e.idempotencyKey == c.Key() && e.tenantId == c.tenant;
    assert q.tenant == c.tenant && c.Key().Some? ==>
        KeyOf(q, RESERVING) != c.Key() && KeyOf(q, CONSUMING) != c.Key() && KeyOf(q, RELEASING) != c.Key();
  }

  lemma {:induction false} OtherCallFits(plans: set<Plan>, tenants: set<string>, rows: seq<Entry>, c: Call)
    requires Unrelated(plans, c) && TableFits(plans, tenants, rows)
    ensures TableFits(plans, tenants, After(tenants, rows, c))
  {
    if Writes(tenants, rows, c) {
      var e := RowOf(c);
      forall q | q in plans ensures PlanFits(rows + [e], q) {
        UnrelatedRow(plans, rows, c, q);
        SumAppend(rows, e, PlanAvailable(q));
        SumAppend(rows, e, PlanReserved(q));
      }
      forall t, u | u != "" ensures UserFits(plans, rows + [e], t, u) {
        UnrelatedUser(plans, rows, c, t, u);
      }
    }
  }

  lemma UnrelatedUser(plans: set<Plan>, rows: seq<Entry>, c: Call, t: string, u: string)
    requires Unrelated(plans, c) && u != "" && UserFits(plans, rows, t, u)
    ensures UserFits(plans, rows + [RowOf(c)], t, u)
  {
    var e := RowOf(c);
    forall q | q in plans ensures forall r :: Did(rows + [e], q, r) <==> Did(rows, q, r) {
      UnrelatedRow(plans, rows, c, q);
    }
    assert Those(plans, rows + [e], t, u, RESERVING) == Those(plans, rows, t, u, RESERVING);
    assert Those(plans, rows + [e], t, u, CONSUMING) == Those(plans, rows, t, u, CONSUMING);
    assert Those(plans, rows + [e], t, u, RELEASING) == Those(plans, rows, t, u, RELEASING);
    SumAppend(rows, e, ReservedIn(t, Some(u)));
    SumAppend(rows, e, AmountIn(t, Some(u), CONSUMED));
  }

  // ----- every action -----

  lemma {:induction false} DidStays(tenants: set<string>, rows: seq<Entry>, c: Call)
    ensures forall p, r :: Did(rows, p, r) ==> Did(After(tenants, rows, c), p, r)
  {
    KeysStay(tenants, rows, c);
  }

  lemma {:induction false} PlanActionKeepsInv(plans: set<Plan>, tenants: set<string>, s: State, id: nat, role: Role,
                                              progress: Progress)
    requires Inv(plans, tenants, s) && id in s.attempts && KeyOf(s.attempts[id].plan, role).Some?
    requires role != RESERVING ==> Did(s.rows, s.attempts[id].plan, RESERVING)
    requires var t, c := s.attempts[id], CallOf(s.attempts[id].plan, role);
             && (progress in {RESERVED_OK, FAILING} ==>
                 Did(s.rows, t.plan, RESERVING)
                 || (role == RESERVING && Answer(tenants, s.rows, c).Ok?))
             && (progress == COMPLETED_OK ==> role == CONSUMING && Answer(tenants, s.rows, c).Ok?)
    ensures var t, c := s.attempts[id], CallOf(s.attempts[id].plan, role);
            Inv(plans, tenants, State(After(tenants, s.rows, c), s.attempts[id := t.(progress := progress)]))
  {
    var t, c := s.attempts[id], CallOf(s.attempts[id].plan, role);
    assert AttemptFits(plans, s.rows, t);
    PlanCallFits(plans, tenants, s.rows, t.plan, role);
    DidStays(tenants, s.rows, c);
    if Answer(tenants, s.rows, c).Ok? {
      SuccessLeavesItsKey(tenants, s.rows, c);
    }
    forall x | x in s.attempts && x != id ensures AttemptFits(plans, After(tenants, s.rows, c), s.attempts[x]) {
      assert AttemptFits(plans, s.rows, s.attempts[x]);
    }
  }

  lemma {:induction false} ActionKeepsInv(plans: set<Plan>, tenants: set<string>, s: State, a: Action)
    requires Inv(plans, tenants, s) && Enabled(plans, s, a)
    ensures Inv(plans, tenants, Next(tenants, s, a))
  {
    match a
    case Begin(_, _) =>
    case DoReserve(id) => PlanActionKeepsInv(plans, tenants, s, id, RESERVING,
      Next(tenants, s, a).attempts[id].progress);
    case DoConsume(id) =>
      assert AttemptFits(plans, s.rows, s.attempts[id]);
      PlanActionKeepsInv(plans, tenants, s, id, CONSUMING, Next(tenants, s, a).attempts[id].progress);
    case Fail(id) => assert AttemptFits(plans, s.rows, s.attempts[id]);
    case DoRelease(id) =>
      assert AttemptFits(plans, s.rows, s.attempts[id]);
      PlanActionKeepsInv(plans, tenants, s, id, RELEASING, STOPPED);
    case Crash(id) => assert AttemptFits(plans, s.rows, s.attempts[id]);
    case Other(c) =>
      OtherCallFits(plans, tenants, s.rows, c);
      DidStays(tenants, s.rows, c);
  }

  lemma {:induction false} RunKeepsInv(plans: set<Plan>, tenants: set<string>, s: State, actions: seq<Action>)
    requires Inv(plans, tenants, s) && Legal(plans, tenants, s, actions)
    ensures Inv(plans, tenants, Final(plans, tenants, s, actions))
    decreases |actions|
  {
    if actions == [] {
    } else {
      ActionKeepsInv(plans, tenants, s, actions[0]);
      RunKeepsInv(plans, tenants, Next(tenants, s, actions[0]), actions[1..]);
    }
  }

  lemma {:induction false} ReachableInv(plans: set<Plan>, tenants: set<string>, actions: seq<Action>)
    requires Disciplined(plans) && Legal(plans, tenants, State([], map[]), actions)
    ensures Inv(plans, tenants, Final(plans, tenants, State([], map[]), actions))
  {
    forall t, u, r ensures Those(plans, [], t, u, r) == {} {}
    RunKeepsInv(plans, tenants, State([], map[]), actions);
  }

  // ----- the results -----

  lemma Cardinalities(r: set<Plan>, c: set<Plan>, l: set<Plan>)
    requires c <= r && l <= r
    ensures |r| - |c| - |l| == |r - c - l| - |c * l|
  {
    assert r - c - l == r - (c + l);
    assert |r - (c + l)| == |r| - |c + l|;
    assert |c + l| == |c| + |l| - |c * l|;
  }

  lemma {:induction false} OnlyReservedPlansEnd(plans: set<Plan>, tenants: set<string>, rows: seq<Entry>, t: string,
                                                u: string)
    requires TableFits(plans, tenants, rows)
    ensures Those(plans, rows, t, u, CONSUMING) <= Those(plans, rows, t, u, RESERVING)
    ensures Those(plans, rows, t, u, RELEASING) <= Those(plans, rows, t, u, RESERVING)
  {
    forall p | p in plans ensures Did(rows, p, CONSUMING) || Did(rows, p, RELEASING) ==> Did(rows, p, RESERVING) {
      assert PlanFits(rows, p);
    }
  }

  lemma {:induction false} ReservedIsPendingLessTwice(plans: set<Plan>, tenants: set<string>, rows: seq<Entry>,
                                                      tenant: string, user: string)
    requires TableFits(plans, tenants, rows) && user != ""
    ensures Reserved(rows, tenant, Some(user))
            == |Pending(plans, rows, tenant, user)| - |Twice(plans, rows, tenant, user)|
  {
    assert UserFits(plans, rows, tenant, user);
    OnlyReservedPlansEnd(plans, tenants, rows, tenant, user);
    Cardinalities(Those(plans, rows, tenant, user, RESERVING), Those(plans, rows, tenant, user, CONSUMING),
      Those(plans, rows, tenant, user, RELEASING));
  }

  /** Over any interleaving of sagas, crashes, failures, releases and retries: a user's reserved sum is the number of
      that user's plans that hold a reservation, less those that were both consumed and released, and the consumed total
      is the number of plans consumed. Where nothing is released it is the number of plans reserved and not yet
      consumed. */
  lemma {:induction false} ReservedCountsPendingKeys(plans: set<Plan>, tenants: set<string>, actions: seq<Action>,
                                                     tenant: string, user: string)
    requires Disciplined(plans) && Legal(plans, tenants, State([], map[]), actions) && user != ""
    ensures var rows := Final(plans, tenants, State([], map[]), actions).rows;
            && Reserved(rows, tenant, Some(user)) == |Pending(plans, rows, tenant, user)|
               - |Twice(plans, rows, tenant, user)|
            && Amount(rows, tenant, Some(user), CONSUMED) == |Those(plans, rows, tenant, user, CONSUMING)|
            && ((forall p <- plans :: p.releaseKey.None?) ==>
                Reserved(rows, tenant, Some(user)) == |Pending(plans, rows, tenant, user)|)
  {
    ReachableInv(plans, tenants, actions);
    var rows := Final(plans, tenants, State([], map[]), actions).rows;
    assert UserFits(plans, rows, tenant, user);
    ReservedIsPendingLessTwice(plans, tenants, rows, tenant, user);
    if forall p <- plans :: p.releaseKey.None? {
      NothingTwice(plans, rows, tenant, user);
    }
  }

  lemma ConsumeAnswerByReserved(tenants: set<string>, rows: seq<Entry>, p: Plan)
    requires p.user != "" && !Blank(p.consumeKey) && p.tenant in tenants
    ensures Answer(tenants, rows, CallOf(p, CONSUMING)).Ok?
            <==> Did(rows, p, CONSUMING) || Reserved(rows, p.tenant, Some(p.user)) >= 1
  {
    assert p.consumeKey != "";
  }

  lemma TenantIsKnown(tenants: set<string>, rows: seq<Entry>, p: Plan)
    requires (forall i :: 0 <= i < |rows| ==> rows[i].tenantId in tenants) && Did(rows, p, RESERVING)
    ensures p.tenant in tenants
  {
    var i :| 0 <= i < |rows| && HasKeyAt(rows[i], p.tenant, p.reserveKey);
  }

  lemma ConsumeAnswer(plans: set<Plan>, tenants: set<string>, rows: seq<Entry>, p: Plan)
    requires Disciplined(plans) && TableFits(plans, tenants, rows) && p in plans && Did(rows, p, RESERVING)
    ensures Answer(tenants, rows, CallOf(p, CONSUMING)).Ok? <==>
              Did(rows, p, CONSUMING) || |Pending(plans, rows, p.tenant, p.user)| > |Twice(plans, rows, p.tenant,
                p.user)|
  {
    ReservedIsPendingLessTwice(plans, tenants, rows, p.tenant, p.user);
    TenantIsKnown(tenants, rows, p);
    ConsumeAnswerByReserved(tenants, rows, p);
  }

  lemma NothingTwice(plans: set<Plan>, rows: seq<Entry>, tenant: string, user: string)
    requires forall p <- plans :: p.releaseKey.None?
    ensures Twice(plans, rows, tenant, user) == {}
  {
  }

  lemma NotEmpty(plans: set<Plan>, p: Plan)
    requires p in plans
    ensures |plans| > 0
  {
  }

  lemma {:induction false} IsPending(plans: set<Plan>, rows: seq<Entry>, p: Plan)
    requires p in plans && Did(rows, p, RESERVING) && !Did(rows, p, CONSUMING) && !Did(rows, p, RELEASING)
    ensures p in Pending(plans, rows, p.tenant, p.user)
  {
  }

  lemma {:induction false} ConsumeSucceeds(plans: set<Plan>, tenants: set<string>, rows: seq<Entry>, p: Plan)
    requires Disciplined(plans) && TableFits(plans, tenants, rows) && p in plans && Did(rows, p, RESERVING)
    requires Twice(plans, rows, p.tenant, p.user) == {} && !Did(rows, p, RELEASING)
    ensures Answer(tenants, rows, CallOf(p, CONSUMING)).Ok?
  {
    if !Did(rows, p, CONSUMING) {
      IsPending(plans, rows, p);
      NotEmpty(Pending(plans, rows, p.tenant, p.user), p);
    }
    ConsumeAnswer(plans, tenants, rows, p);
  }

  lemma ConsumeWrites(tenants: set<string>, rows: seq<Entry>, p: Plan)
    requires !Did(rows, p, CONSUMING)
    ensures var c := CallOf(p, CONSUMING);
            After(tenants, rows, c) == if Answer(tenants, rows, c).Ok? then rows + [RowOf(c)] else rows
  {
  }

  lemma ConsumedThoughReleased(plans: set<Plan>, rows: seq<Entry>, p: Plan)
    requires Disciplined(plans) && p in plans && Did(rows, p, RELEASING)
    ensures var after := rows + [RowOf(CallOf(p, CONSUMING))];
            && Pending(plans, after, p.tenant, p.user) == Pending(plans, rows, p.tenant, p.user)
            && Twice(plans, after, p.tenant, p.user) == Twice(plans, rows, p.tenant, p.user) + {p}
  {
    ThoseAfter(plans, rows, p, CONSUMING, p.tenant, p.user, RESERVING);
    ThoseAfter(plans, rows, p, CONSUMING, p.tenant, p.user, CONSUMING);
    ThoseAfter(plans, rows, p, CONSUMING, p.tenant, p.user, RELEASING);
    assert p in Those(plans, rows, p.tenant, p.user, RELEASING);
  }

  lemma ConsumeAfterRelease(plans: set<Plan>, tenants: set<string>, rows: seq<Entry>, p: Plan)
    requires Disciplined(plans) && TableFits(plans, tenants, rows) && p in plans && Did(rows, p, RESERVING)
    requires Did(rows, p, RELEASING) && !Did(rows, p, CONSUMING)
    ensures var after := After(tenants, rows, CallOf(p, CONSUMING));
            && Pending(plans, after, p.tenant, p.user) == Pending(plans, rows, p.tenant, p.user)
            && (if |Pending(plans, rows, p.tenant, p.user)| > |Twice(plans, rows, p.tenant, p.user)| then
                  Twice(plans, after, p.tenant, p.user) == Twice(plans, rows, p.tenant, p.user) + {p}
                else after == rows)
  {
    ConsumeAnswer(plans, tenants, rows, p);
    ConsumeWrites(tenants, rows, p);
    if Answer(tenants, rows, CallOf(p, CONSUMING)).Ok? {
      ConsumedThoughReleased(plans, rows, p);
    }
  }

  /** An attempt that got its reservation gets through its consume step if and only if the step was already taken or
      fewer of the user's plans were both consumed and released than hold a reservation. */
  lemma {:induction false} ConsumeGoesThroughIff(plans: set<Plan>, tenants: set<string>, actions: seq<Action>, id: nat)
    requires Disciplined(plans) && Legal(plans, tenants, State([], map[]), actions)
    requires var s := Final(plans, tenants, State([], map[]), actions);
             id in s.attempts && s.attempts[id].progress == RESERVED_OK
    ensures var s := Final(plans, tenants, State([], map[]), actions);
            var p := s.attempts[id].plan;
            Answer(tenants, s.rows, CallOf(p, CONSUMING)).Ok? <==>
              Did(s.rows, p, CONSUMING) || |Pending(plans, s.rows, p.tenant, p.user)| > |Twice(plans, s.rows, p.tenant,
                p.user)|
  {
    ReachableInv(plans, tenants, actions);
    var s := Final(plans, tenants, State([], map[]), actions);
    assert AttemptFits(plans, s.rows, s.attempts[id]);
    ConsumeAnswer(plans, tenants, s.rows, s.attempts[id].plan);
  }

  /** As long as no plan of the user was both consumed and released, a saga that has reserved and not been released
      always gets through its consume step, however often it is retried; registrations that never release are always in
      that case. */
  lemma {:induction false} ConsumeNeverLacksItsReservation(plans: set<Plan>, tenants: set<string>, actions: seq<Action>,
                                                           id: nat)
    requires Disciplined(plans) && Legal(plans, tenants, State([], map[]), actions)
    requires var s := Final(plans, tenants, State([], map[]), actions);
             && id in s.attempts && s.attempts[id].progress == RESERVED_OK
             && var p := s.attempts[id].plan;
                (Twice(plans, s.rows, p.tenant, p.user) == {} && !Did(s.rows, p, RELEASING))
                  || (forall q <- plans :: q.releaseKey.None?)
    ensures var s := Final(plans, tenants, State([], map[]), actions);
            Answer(tenants, s.rows, CallOf(s.attempts[id].plan, CONSUMING)).Ok?
  {
    ReachableInv(plans, tenants, actions);
    var s := Final(plans, tenants, State([], map[]), actions);
    var p := s.attempts[id].plan;
    assert AttemptFits(plans, s.rows, s.attempts[id]);
    if forall q <- plans :: q.releaseKey.None? {
      NothingTwice(plans, s.rows, p.tenant, p.user);
    }
    ConsumeSucceeds(plans, tenants, s.rows, p);
  }

  /** A retry after a release is answered with the old reservation and holds none: its consume is refused, or it spends
      the reservation of another plan of the user. Which of the two is decided by whether any other is left. */
  lemma {:induction false} RetryAfterReleaseSpendsAnother(plans: set<Plan>, tenants: set<string>, actions: seq<Action>,
                                                          id: nat)
    requires Disciplined(plans) && Legal(plans, tenants, State([], map[]), actions)
    requires var s := Final(plans, tenants, State([], map[]), actions);
             && id in s.attempts && s.attempts[id].progress == RESERVED_OK
             && Did(s.rows, s.attempts[id].plan, RELEASING) && !Did(s.rows, s.attempts[id].plan, CONSUMING)
    ensures var s := Final(plans, tenants, State([], map[]), actions);
            var p := s.attempts[id].plan;
            var rows := After(tenants, s.rows, CallOf(p, CONSUMING));
            && Pending(plans, rows, p.tenant, p.user) == Pending(plans, s.rows, p.tenant, p.user)
            && (if |Pending(plans, s.rows, p.tenant, p.user)| > |Twice(plans, s.rows, p.tenant, p.user)| then
                  Twice(plans, rows, p.tenant, p.user) == Twice(plans, s.rows, p.tenant, p.user) + {p}
                else rows == s.rows)
  {
    ReachableInv(plans, tenants, actions);
    var s := Final(plans, tenants, State([], map[]), actions);
    assert AttemptFits(plans, s.rows, s.attempts[id]);
    ConsumeAfterRelease(plans, tenants, s.rows, s.attempts[id].plan);
  }

  /** The rows of a completed saga take exactly one credit from the available sum and leave nothing reserved, unless the
      plan was released as well: then they take nothing, and one reservation more than they made. */
  lemma {:induction false} CompletedSagaSpendsOneCredit(plans: set<Plan>, tenants: set<string>, actions: seq<Action>,
                                                        id: nat)
    requires Disciplined(plans) && Legal(plans, tenants, State([], map[]), actions)
    requires var s := Final(plans, tenants, State([], map[]), actions);
             id in s.attempts && s.attempts[id].progress == COMPLETED_OK
    ensures var s := Final(plans, tenants, State([], map[]), actions);
            var p := s.attempts[id].plan;
            && Sum(s.rows, PlanAvailable(p)) == (if Did(s.rows, p, RELEASING) then 0 else -1)
            && Sum(s.rows, PlanReserved(p)) == (if Did(s.rows, p, RELEASING) then -1 else 0)
  {
    ReachableInv(plans, tenants, actions);
    var s := Final(plans, tenants, State([], map[]), actions);
    assert AttemptFits(plans, s.rows, s.attempts[id]) && PlanFits(s.rows, s.attempts[id].plan);
  }

  // ----- a run that starves a saga -----

  /** The call finds its key unused and its balance sufficient. */
  lemma CallWrites(tenants: set<string>, rows: seq<Entry>, p: Plan, role: Role)
    requires KeyOf(p, role).Some? && !Did(rows, p, role) && !Blank(KeyOf(p, role).value) && p.tenant in tenants
    requires if role == RESERVING then Available(rows, p.tenant, Some(p.user)) >= 1
             else Reserved(rows, p.tenant, Some(p.user)) >= 1
    ensures After(tenants, rows, CallOf(p, role)) == rows + [RowOf(CallOf(p, role))]
  {
  }

  /** What one row of a plan does to its user's balance. */
  lemma BalanceAfter(rows: seq<Entry>, p: Plan, role: Role)
    requires KeyOf(p, role).Some? && p.user != ""
    ensures var after := rows + [RowOf(CallOf(p, role))];
            && Available(after, p.tenant, Some(p.user))
               == Available(rows, p.tenant, Some(p.user)) + (if role == RESERVING then -1
                 else if role == RELEASING then 1 else 0)
            && Reserved(after, p.tenant, Some(p.user))
               == Reserved(rows, p.tenant, Some(p.user)) + if role == RESERVING then 1 else -1
  {
    SumAppend(rows, RowOf(CallOf(p, role)), AvailableIn(p.tenant, Some(p.user)));
    SumAppend(rows, RowOf(CallOf(p, role)), ReservedIn(p.tenant, Some(p.user)));
  }

  /** Of two plans of one user, neither begun. */
  ghost predicate Unbegun(plans: set<Plan>, rows: seq<Entry>, a: Plan, b: Plan) {
    && Disciplined(plans) && a in plans && b in plans && a != b && a.tenant == b.tenant && a.user == b.user
       && a.releaseKey.Some?
    && !Blank(a.reserveKey) && !Blank(b.reserveKey)
    && forall r :: !Did(rows, a, r) && !Did(rows, b, r)
  }

  lemma FirstThree(plans: set<Plan>, tenants: set<string>, rows: seq<Entry>, a: Plan, b: Plan)
    returns (after: seq<Entry>)
    requires Unbegun(plans, rows, a, b) && a.tenant in tenants
    requires Available(rows, a.tenant, Some(a.user)) >= 1 && Reserved(rows, a.tenant, Some(a.user)) == 0
    ensures After(tenants, After(tenants, After(tenants, rows, CallOf(a, RESERVING)), CallOf(a, RELEASING)),
            CallOf(b, RESERVING)) == after
    ensures |after| == |rows| + 3 && Reserved(after, a.tenant, Some(a.user)) == 1
    ensures !Did(after, a, CONSUMING) && !Did(after, b, CONSUMING)
  {
    var one := rows + [RowOf(CallOf(a, RESERVING))];
    var two := one + [RowOf(CallOf(a, RELEASING))];
    after := two + [RowOf(CallOf(b, RESERVING))];
    CallWrites(tenants, rows, a, RESERVING);
    BalanceAfter(rows, a, RESERVING);
    DidAfter(plans, rows, a, RESERVING, a, RELEASING);
    CallWrites(tenants, one, a, RELEASING);
    BalanceAfter(one, a, RELEASING);
    NotYet(plans, rows, one, two, a, b);
    CallWrites(tenants, two, b, RESERVING);
    BalanceAfter(two, b, RESERVING);
    DidAfter(plans, two, b, RESERVING, a, CONSUMING);
    DidAfter(plans, two, b, RESERVING, b, CONSUMING);
  }

  lemma NotYet(plans: set<Plan>, rows: seq<Entry>, one: seq<Entry>, two: seq<Entry>, a: Plan, b: Plan)
    requires Unbegun(plans, rows, a, b)
    requires one == rows + [RowOf(CallOf(a, RESERVING))] && two == one + [RowOf(CallOf(a, RELEASING))]
    ensures !Did(two, b, RESERVING) && !Did(two, a, CONSUMING) && !Did(two, b, CONSUMING)
  {
    DidAfter(plans, rows, a, RESERVING, b, RESERVING);
    DidAfter(plans, rows, a, RESERVING, a, CONSUMING);
    DidAfter(plans, rows, a, RESERVING, b, CONSUMING);
    DidAfter(plans, one, a, RELEASING, b, RESERVING);
    DidAfter(plans, one, a, RELEASING, a, CONSUMING);
    DidAfter(plans, one, a, RELEASING, b, CONSUMING);
  }

  /** A plan reserves and is released, another of the same user reserves, the first is retried and consumes: all four
      calls write their rows, and the second, which did nothing but reserve, is refused its consume. */
  lemma RetryStarvesAnother(plans: set<Plan>, tenants: set<string>, rows: seq<Entry>, a: Plan, b: Plan)
    requires Unbegun(plans, rows, a, b) && a.tenant in tenants
    requires Available(rows, a.tenant, Some(a.user)) >= 1 && Reserved(rows, a.tenant, Some(a.user)) == 0
    ensures var reserved := After(tenants, After(tenants, After(tenants, rows, CallOf(a, RESERVING)),
            CallOf(a, RELEASING)), CallOf(b, RESERVING));
            var consumed := After(tenants, reserved, CallOf(a, CONSUMING));
            |consumed| == |rows| + 4 && Answer(tenants, consumed, CallOf(b, CONSUMING))
              == Err(INSUFFICIENT_RESERVED_CREDITS)
  {
    var reserved := FirstThree(plans, tenants, rows, a, b);
    var consumed := reserved + [RowOf(CallOf(a, CONSUMING))];
    CallWrites(tenants, reserved, a, CONSUMING);
    BalanceAfter(reserved, a, CONSUMING);
    DidAfter(plans, reserved, a, CONSUMING, b, CONSUMING);
    assert Reserved(consumed, b.tenant, Some(b.user)) == 0;
  }

  // ----- which plans are disciplined -----

  predicate IsRegistration(p: Plan) {
    p == RegistrationPlan(p.tenant, p.user, p.reserveKey)
  }

  lemma NotBlank(key: string, suffix: string)
    requires suffix != "" && suffix[0] == ':'
    ensures !Blank(key + suffix) && |key + suffix| > 0
  {
    assert (key + suffix)[|key|] == ':' && !IsSpace(':');
  }

  lemma SuffixCancels(a: string, b: string, suffix: string)
    ensures a + suffix == b + suffix ==> a == b
  {
    if a + suffix == b + suffix {
      assert a == (a + suffix)[..|a|] == (b + suffix)[..|b|] == b;
    }
  }

  /** Registrations are disciplined if and only if their users are real, a key of a tenant serves one of them, and no
      key is another key of the tenant plus ":consume". */
  lemma RegistrationsDisciplinedIff(plans: set<Plan>)
    requires forall p <- plans :: IsRegistration(p)
    ensures Disciplined(plans) <==>
              && (forall p <- plans :: p.user != "")
              && (forall p, q :: p in plans && q in plans && p.tenant == q.tenant && p.reserveKey == q.reserveKey ==>
                  p == q)
              && (forall p, q :: p in plans && q in plans && p.tenant == q.tenant ==>
                  p.reserveKey != q.reserveKey + ":consume")
  {
    forall p | p in plans ensures !Blank(p.consumeKey) {
      NotBlank(p.reserveKey, ":consume");
    }
    forall p, q | p in plans && q in plans ensures p.consumeKey == q.consumeKey ==> p.reserveKey == q.reserveKey {
      SuffixCancels(p.reserveKey, q.reserveKey, ":consume");
    }
    if Disciplined(plans) {
      forall p, q | p in plans && q in plans && p.tenant == q.tenant
        ensures p.reserveKey == q.reserveKey ==> p == q
        ensures p.reserveKey != q.reserveKey + ":consume"
      {
        assert SameKey(p, RESERVING, q, RESERVING) <==> p.reserveKey == q.reserveKey;
        assert SameKey(p, RESERVING, q, CONSUMING) <==> p.reserveKey == q.consumeKey;
      }
    }
  }

  lemma SuffixesDiffer(a: string, b: string)
    ensures a + ":reserve" != b + ":consume" && a + ":reserve" != b + ":release" && a + ":consume" != b + ":release"
  {
    assert (a + ":reserve")[|a| + 3] == 's' && (b + ":release")[|b| + 3] == 'l';
    assert (a + ":reserve")[|a| + 1] == 'r' && (b + ":consume")[|b| + 1] == 'c' && (b + ":release")[|b| + 1] == 'r';
    assert (a + ":consume")[|a| + 1] == 'c';
  }

  /** Dependent registrations need only real users and one base key each. */
  lemma DependentsAreDisciplined(bases: map<Plan, string>)
    requires forall p <- bases :: p == DependentPlan(p.tenant, p.user, bases[p]) && p.user != ""
    requires forall p, q :: p in bases && q in bases && p.tenant == q.tenant && bases[p] == bases[q] ==> p == q
    ensures Disciplined(bases.Keys)
  {
    forall p | p in bases ensures !Blank(p.consumeKey) && !Blank(p.releaseKey.value) {
      NotBlank(bases[p], ":consume");
      NotBlank(bases[p], ":release");
    }
    forall p, q, r1, r2 | p in bases && q in bases && SameKey(p, r1, q, r2) ensures p == q && r1 == r2 {
      SuffixesDiffer(bases[p], bases[q]);
      SuffixesDiffer(bases[q], bases[p]);
      SuffixCancels(bases[p], bases[q], ":reserve");
      SuffixCancels(bases[p], bases[q], ":consume");
      SuffixCancels(bases[p], bases[q], ":release");
    }
  }
}
