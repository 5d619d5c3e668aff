/** What the calls of the credit ledger ask for, and what the balances and the reported totals make of it. */
module CreditTotals {
  import opened Common
  import opened LedgerTable
  import opened CreditLedger
  import opened CreditLedgerProofs

  // ----- one call -----

  /** The table grew. */
  predicate Wrote(tenants: set<string>, rows: seq<Entry>, c: Call) {
    |After(tenants, rows, c)| > |rows|
  }

  /** The call is for this scope: the tenant's total, or the balance of this user. */
  predicate IsFor(c: Call, tenant: string, user: Option<string>) {
    && c.tenant == tenant
    && (user.Some? && user.value != "" ==> user == if c.Bonus? then Some(c.bonusUser) else c.user)
  }

  function Plus(a: Balance, b: Balance): Balance {
    Balance(a.available + b.available, a.reserved + b.reserved, a.purchased + b.purchased, a.granted + b.granted,
            a.adjusted + b.adjusted, a.consumed + b.consumed, a.released + b.released, a.revoked + b.revoked,
            a.entryCount + b.entryCount)
  }

  const NOTHING := Balance(0, 0, 0, 0, 0, 0, 0, 0, 0)

  /** What a call that goes through is meant to move. */
  function Effect(c: Call): Balance {
    match c
    case Grant(_, _, n, _) => NOTHING.(available := n, granted := n, entryCount := 1)
    case Adjust(_, _, d, _) => NOTHING.(available := d, adjusted := if d < 0 then -d else d, entryCount := 1)
    case Revoke(_, _, n, _) => NOTHING.(available := -n, revoked := n, entryCount := 1)
    case Reserve(_, _, n, _) => NOTHING.(available := -n, reserved := n, entryCount := 1)
    case Consume(_, _, n, _) => NOTHING.(reserved := -n, consumed := n, entryCount := 1)
    case Release(_, _, n, _) => NOTHING.(available := n, reserved := -n, released := n, entryCount := 1)
    case Purchase(_, _, n, _) => NOTHING.(available := n, purchased := n, entryCount := 1)
    case Bonus(_, _) => NOTHING.(available := 5, granted := 5, entryCount := 1)
  }

  /** What a row adds to the report of a scope it is in. */
  function Carried(e: Entry): Balance {
    Balance(e.availableDelta, e.reservedDelta, AmountOf(e, PURCHASED), AmountOf(e, GRANTED), AmountOf(e, ADJUSTED),
            AmountOf(e, CONSUMED), AmountOf(e, RELEASED), AmountOf(e, REVOKED), 1)
  }

  function AmountOf(e: Entry, kind: EntryType): int {
    if e.entryType == kind then e.amount else 0
  }

  lemma RowAdds(rows: seq<Entry>, e: Entry, tenant: string, user: Option<string>)
    ensures Projection(rows + [e], tenant, user)
            == Plus(Projection(rows, tenant, user), if InScope(e, tenant, user) then Carried(e) else NOTHING)
  {
    SumAppend(rows, e, AvailableIn(tenant, user));
    SumAppend(rows, e, ReservedIn(tenant, user));
    SumAppend(rows, e, CountIn(tenant, user));
    forall kind ensures Amount(rows + [e], tenant, user, kind)
        == Amount(rows, tenant, user, kind) + if InScope(e, tenant, user) then AmountOf(e, kind) else 0 {
      SumAppend(rows, e, AmountIn(tenant, user, kind));
    }
  }

  lemma RowCarriesTheEffect(c: Call, tenant: string, user: Option<string>)
    ensures Carried(RowOf(c)) == Effect(c)
    ensures InScope(RowOf(c), tenant, user) <==> IsFor(c, tenant, user)
  {
  }

  /** A call that writes moves the balances and totals of its own scopes by what it was asked for, and no other scope.
      */
  lemma CallMovesItsScopes(tenants: set<string>, rows: seq<Entry>, c: Call, tenant: string, user: Option<string>)
    ensures Projection(After(tenants, rows, c), tenant, user)
            == Plus(Projection(rows, tenant, user), Move(tenants, rows, c, tenant, user))
  {
    var now := Projection(rows, tenant, user);
    TableGrowsByOneRow(tenants, rows, c);
    if Wrote(tenants, rows, c) {
      RowAdds(rows, RowOf(c), tenant, user);
      RowCarriesTheEffect(c, tenant, user);
    } else {
      PlusNothing(now);
    }
  }

  lemma TableGrowsByOneRow(tenants: set<string>, rows: seq<Entry>, c: Call)
    ensures After(tenants, rows, c) == if Wrote(tenants, rows, c) then rows + [RowOf(c)] else rows
  {
  }

  /** The effect on the scopes a call that wrote is for, nothing on any other. */
  function Move(tenants: set<string>, rows: seq<Entry>, c: Call, tenant: string, user: Option<string>): Balance {
    if Wrote(tenants, rows, c) && IsFor(c, tenant, user) then Effect(c) else NOTHING
  }

  /** The sum of what the calls that wrote were asked to move in a scope. */
  function Moved(tenants: set<string>, rows: seq<Entry>, calls: seq<Call>, tenant: string,
                 user: Option<string>): Balance
    decreases |calls|
  {
    if calls == [] then NOTHING
    else
      Plus(Move(tenants, rows, calls[0], tenant, user),
           Moved(tenants, After(tenants, rows, calls[0]), calls[1..], tenant, user))
  }

  lemma PlusNothing(a: Balance)
    ensures Plus(a, NOTHING) == a
  {
  }

  lemma PlusIsAssociative(a: Balance, b: Balance, c: Balance)
    ensures Plus(Plus(a, b), c) == Plus(a, Plus(b, c))
  {
  }

  lemma {:induction false} RunMovesTheSum(tenants: set<string>, rows: seq<Entry>, calls: seq<Call>, tenant: string,
                                          user: Option<string>)
    ensures Projection(Run(tenants, rows, calls), tenant, user)
            == Plus(Projection(rows, tenant, user), Moved(tenants, rows, calls, tenant, user))
    decreases |calls|
  {
    if calls == [] {
      PlusNothing(Projection(rows, tenant, user));
    } else {
      var after, move := After(tenants, rows, calls[0]), Move(tenants, rows, calls[0], tenant, user);
      CallMovesItsScopes(tenants, rows, calls[0], tenant, user);
      RunMovesTheSum(tenants, after, calls[1..], tenant, user);
      PlusIsAssociative(Projection(rows, tenant, user), move, Moved(tenants, after, calls[1..], tenant, user));
    }
  }

  /** Over every run: available and reserved, each of the totals and the number of entries that a scope reports are the
      sums of the amounts asked for there by the calls that wrote. */
  lemma TotalsAreWhatWasAsked(tenants: set<string>, calls: seq<Call>, tenant: string, user: Option<string>)
    ensures Projection(Run(tenants, [], calls), tenant, user) == Moved(tenants, [], calls, tenant, user)
  {
    RunMovesTheSum(tenants, [], calls, tenant, user);
  }

  // ----- when a call goes through -----

  /** The tenant has no row with the key the call carries. */
  ghost predicate KeyIsNew(rows: seq<Entry>, c: Call) {
    forall i :: 0 <= i < |rows| && rows[i].tenantId == c.tenant ==>
      match c
      case Bonus(_, u) => rows[i].idempotencyKey != Some("registration-bonus:" + u)
      case Grant(_, _, _, k) => k == None || rows[i].idempotencyKey != k
      case Adjust(_, _, _, k) => k == None || rows[i].idempotencyKey != k
      case Revoke(_, _, _, k) => k == None || rows[i].idempotencyKey != k
      case _ => rows[i].idempotencyKey != Some(c.key)
  }

  /** A positive amount, or for an adjustment any but zero, and a key that is not blank where one is required. */
  predicate WellFormed(tenants: set<string>, c: Call) {
    match c
    case Grant(t, _, n, _) => n > 0 && t in tenants
    case Adjust(t, _, d, _) => d != 0 && t in tenants
    case Revoke(t, _, n, _) => n > 0 && t in tenants
    case Bonus(_, _) => true
    case _ => c.amount > 0 && exists i :: 0 <= i < |c.key| && !IsSpace(c.key[i])
  }

  /** The balance of the call's own scope covers what it takes. */
  predicate Covered(rows: seq<Entry>, c: Call) {
    match c
    case Adjust(t, u, d, _) => d >= 0 || Available(rows, t, u) >= -d
    case Revoke(t, u, n, _) => Available(rows, t, u) >= n
    case Reserve(t, u, n, _) => Available(rows, t, u) >= n
    case Consume(t, u, n, _) => Reserved(rows, t, u) >= n
    case Release(t, u, n, _) => Reserved(rows, t, u) >= n
    case _ => true
  }

  lemma KeyIsNewIff(rows: seq<Entry>, c: Call)
    ensures KeyIsNew(rows, c) <==> c.Key().None? || !HasKey(rows, c.tenant, c.Key().value)
  {
    if c.Key().Some? {
      if KeyIsNew(rows, c) {
        forall i | 0 <= i < |rows| ensures !HasKeyAt(rows[i], c.tenant, c.Key().value) {
        }
      }
      if !HasKey(rows, c.tenant, c.Key().value) {
        forall i | 0 <= i < |rows| ensures !HasKeyAt(rows[i], c.tenant, c.Key().value) {
        }
      }
    }
  }

  /** A call writes if and only if it is well formed, its tenant exists, its key is new and its scope covers it. */
  lemma WritesIff(tenants: set<string>, rows: seq<Entry>, c: Call)
    ensures Wrote(tenants, rows, c)
            <==> WellFormed(tenants, c) && c.tenant in tenants && KeyIsNew(rows, c) && Covered(rows, c)
  {
    KeyIsNewIff(rows, c);
  }

  /** A call with a key of its own that is already in the table is answered with a row of that key, or refused: an
      administrator's debit unless the scope still covers it, an operational call never for lack of credits. */
  lemma RetryIsAnsweredIff(tenants: set<string>, rows: seq<Entry>, c: Call)
    requires !KeyIsNew(rows, c) && c.Key() != Some("")
    ensures Answer(tenants, rows, c).Ok?
            <==> WellFormed(tenants, c) && (c.Grant? || c.Adjust? || c.Revoke? ==> Covered(rows, c))
    ensures Answer(tenants, rows, c).Ok? ==>
              var e := Answer(tenants, rows, c).value;
              e in rows && e.tenantId == c.tenant && e.idempotencyKey == c.Key()
  {
    KeyIsNewIff(rows, c);
  }

  /** A new call is refused for lack of credits if and only if it is well formed and its scope does not cover it. */
  lemma ShortIff(tenants: set<string>, rows: seq<Entry>, c: Call)
    requires KeyIsNew(rows, c)
    ensures Answer(tenants, rows, c) == Err(INSUFFICIENT_CREDITS)
            <==> WellFormed(tenants, c) && !Covered(rows, c) && (c.Adjust? || c.Revoke? || c.Reserve?)
    ensures Answer(tenants, rows, c) == Err(INSUFFICIENT_RESERVED_CREDITS)
            <==> WellFormed(tenants, c) && !Covered(rows, c) && (c.Consume? || c.Release?)
    ensures Answer(tenants, rows, c).Ok? <==> Wrote(tenants, rows, c)
  {
    KeyIsNewIff(rows, c);
  }
}
