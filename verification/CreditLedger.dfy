/** The credit ledger facet: every call checks, then appends at most one row. */
module CreditLedger {
  import opened Common
  import opened LedgerTable

  datatype LedgerError =
    | INVALID_AMOUNT
    | IDEMPOTENCY_KEY_REQUIRED
    | TENANT_NOT_FOUND
    | INSUFFICIENT_CREDITS
    | INSUFFICIENT_RESERVED_CREDITS
    | DATABASE(error: DbError)

  type Reply = Result<Entry, LedgerError>

  const INITIAL_REGISTRATION_BONUS_CREDITS := 5

  /** The calls that write to the ledger. The first three are the platform administrator's. */
  datatype Call =
    | Grant(tenant: string, user: Option<string>, amount: int, adminKey: Option<string>)
    | Adjust(tenant: string, user: Option<string>, amount: int, adminKey: Option<string>)
    | Revoke(tenant: string, user: Option<string>, amount: int, adminKey: Option<string>)
    | Reserve(tenant: string, user: Option<string>, amount: int, key: string)
    | Consume(tenant: string, user: Option<string>, amount: int, key: string)
    | Release(tenant: string, user: Option<string>, amount: int, key: string)
    | Purchase(tenant: string, user: Option<string>, amount: int, key: string)
    | Bonus(tenant: string, bonusUser: string)
  {
    predicate Admin() {
      Grant? || Adjust? || Revoke?
    }

    /** The key the call's row carries. */
    function Key(): Option<string> {
      if Admin() then adminKey
      else if Bonus? then Some("registration-bonus:" + bonusUser)
      else Some(key)
    }

    function Scope(): Option<string> {
      if Bonus? then Some(bonusUser) else user
    }
  }

  /** The row a call appends when nothing stops it. */
  function RowOf(c: Call): Entry {
    var user := OrUndefined(c.Scope());
    match c
    case Grant(t, _, n, k) => Entry(t, user, GRANTED, n, n, 0, k, None)
    case Adjust(t, _, d, k) => Entry(t, user, ADJUSTED, if d < 0 then -d else d, d, 0, k, None)
    case Revoke(t, _, n, k) => Entry(t, user, REVOKED, n, -n, 0, k, None)
    case Reserve(t, _, n, k) => Entry(t, user, RESERVED, n, -n, n, Some(k), None)
    case Consume(t, _, n, k) => Entry(t, user, CONSUMED, n, 0, -n, Some(k), None)
    case Release(t, _, n, k) => Entry(t, user, RELEASED, n, n, -n, Some(k), None)
    case Purchase(t, _, n, k) => Entry(t, user, PURCHASED, n, n, 0, Some(k), None)
    case Bonus(t, u) =>
      Entry(t, Some(u), GRANTED, INITIAL_REGISTRATION_BONUS_CREDITS, INITIAL_REGISTRATION_BONUS_CREDITS, 0, c.Key(),
        None)
  }

  /** Refusals that look at the arguments only (and at the tenant list, for the administrator's calls). */
  function Malformed(tenants: set<string>, c: Call): Option<LedgerError> {
    if c.Bonus? then None
    else if c.Adjust? && c.amount == 0 then Some(INVALID_AMOUNT)
    else if !c.Adjust? && c.amount <= 0 then Some(INVALID_AMOUNT)
    else if c.Admin() then (if c.tenant !in tenants then Some(TENANT_NOT_FOUND) else None)
    else if Blank(c.key) then Some(IDEMPOTENCY_KEY_REQUIRED)
    else None
  }

  /** Refusals that look at the balance of the call's own scope. */
  function Shortage(rows: seq<Entry>, c: Call): Option<LedgerError> {
    match c
    case Adjust(t, u, d, _) => if d < 0 && Available(rows, t, u) + d < 0 then Some(INSUFFICIENT_CREDITS) else None
    case Revoke(t, u, n, _) => if Available(rows, t, u) < n then Some(INSUFFICIENT_CREDITS) else None
    case Reserve(t, u, n, _) => if Available(rows, t, u) < n then Some(INSUFFICIENT_CREDITS) else None
    case Consume(t, u, n, _) => if Reserved(rows, t, u) < n then Some(INSUFFICIENT_RESERVED_CREDITS) else None
    case Release(t, u, n, _) => if Reserved(rows, t, u) < n then Some(INSUFFICIENT_RESERVED_CREDITS) else None
    case _ => None
  }

  /** The earlier row that answers a retried call. An empty administrator key is never looked up. */
  function Replayed(rows: seq<Entry>, c: Call): Option<Entry> {
    if c.Key().None? || c.Key().value == "" then None else Find(rows, c.tenant, c.Key().value)
  }

  /** The meaning of a call. The administrator's debits meet the balance check before the key lookup,
      the operational ones after it. */
  function Answer(tenants: set<string>, rows: seq<Entry>, c: Call): Reply {
    if Malformed(tenants, c).Some? then Err(Malformed(tenants, c).value)
    else if c.Admin() && Shortage(rows, c).Some? then Err(Shortage(rows, c).value)
    else if Replayed(rows, c).Some? then Ok(Replayed(rows, c).value)
    else if Shortage(rows, c).Some? then Err(Shortage(rows, c).value)
    else
      match Insertable(tenants, rows, RowOf(c))
      case Some(err) => Err(DATABASE(err))
      case None => Ok(RowOf(c))
  }

  predicate Writes(tenants: set<string>, rows: seq<Entry>, c: Call) {
    Malformed(tenants, c).None? && Shortage(rows, c).None? && Replayed(rows, c).None?
    && Insertable(tenants, rows, RowOf(c)).None?
  }

  function After(tenants: set<string>, rows: seq<Entry>, c: Call): seq<Entry> {
    if Writes(tenants, rows, c) then rows + [RowOf(c)] else rows
  }

  // ----- the facet itself -----

  method NormalizePositiveAmount(value: int) returns (r: Result<int, LedgerError>)
    ensures r == if value <= 0 then Err(INVALID_AMOUNT) else Ok(value)
  {
    if value <= 0 {
      return Err(INVALID_AMOUNT);
    }
    return Ok(value);
  }

  method CreateLedgerEntry(db: Table, tenant: string, user: Option<string>, t: EntryType, amount: int,
                           availableDelta: int, reservedDelta: int, key: Option<string>)
    returns (r: Reply)
    modifies db
    ensures db.tenants == old(db.tenants)
    ensures var e := Entry(tenant, OrUndefined(user), t, amount, availableDelta, reservedDelta, key, None);
            match Insertable(db.tenants, old(db.rows), e)
            case Some(err) => db.rows == old(db.rows) && r == Err(DATABASE(err))
            case None => db.rows == old(db.rows) + [e] && r == Ok(e)
  {
    var stored := db.Create(
      Entry(tenant, if Real(user) then user else None, t, amount, availableDelta, reservedDelta, key, None));
    match stored {
      case Ok(e) => r := Ok(e);
      case Err(err) => r := Err(DATABASE(err));
    }
  }

  method WriteAdminLedgerEntry(db: Table, tenant: string, user: Option<string>, t: EntryType, amount: int,
                               availableDelta: int, key: Option<string>)
    returns (r: Reply)
    modifies db
    ensures db.tenants == old(db.tenants)
    ensures var e := Entry(tenant, OrUndefined(user), t, amount, availableDelta, 0, key, None);
            var earlier := if key.None? || key.value == "" then None else Find(old(db.rows), tenant, key.value);
            if earlier.Some? then db.rows == old(db.rows) && r == Ok(earlier.value)
            else match Insertable(db.tenants, old(db.rows), e)
              case Some(err) => db.rows == old(db.rows) && r == Err(DATABASE(err))
              case None => db.rows == old(db.rows) + [e] && r == Ok(e)
  {
    if key.Some? && key.value != "" {
      var existing := db.FindIdempotentEntry(tenant, key);
      if existing.Some? {
        return Ok(existing.value);
      }
    }
    r := CreateLedgerEntry(db, tenant, user, t, amount, availableDelta, 0, key);
  }

  method GrantCredits(db: Table, tenant: string, user: Option<string>, amount: int, key: Option<string>)
    returns (r: Reply)
    modifies db
    ensures db.tenants == old(db.tenants)
    ensures db.rows == After(db.tenants, old(db.rows), Grant(tenant, user, amount, key))
    ensures r == Answer(db.tenants, old(db.rows), Grant(tenant, user, amount, key))
  {
    var checked := NormalizePositiveAmount(amount);
    if checked.Err? {
      return Err(checked.error);
    }
    if tenant !in db.tenants {
      return Err(TENANT_NOT_FOUND);
    }
    r := WriteAdminLedgerEntry(db, tenant, user, GRANTED, amount, amount, key);
  }

  method AdjustCredits(db: Table, tenant: string, user: Option<string>, delta: int, key: Option<string>)
    returns (r: Reply)
    modifies db
    ensures db.tenants == old(db.tenants)
    ensures db.rows == After(db.tenants, old(db.rows), Adjust(tenant, user, delta, key))
    ensures r == Answer(db.tenants, old(db.rows), Adjust(tenant, user, delta, key))
  {
    var amount := if delta < 0 then -delta else delta;
    assert RowOf(Adjust(tenant, user, delta, key)) == Entry(tenant, OrUndefined(user), ADJUSTED, amount, delta, 0, key,
        None);
    if delta == 0 {
      return Err(INVALID_AMOUNT);
    }
    if tenant !in db.tenants {
      return Err(TENANT_NOT_FOUND);
    }
    if delta < 0 {
      var balance := db.GetBalanceProjection(tenant, user);
      if balance.available + delta < 0 {
        return Err(INSUFFICIENT_CREDITS);
      }
    }
    r := WriteAdminLedgerEntry(db, tenant, user, ADJUSTED, amount, delta, key);
  }

  method RevokeCredits(db: Table, tenant: string, user: Option<string>, amount: int, key: Option<string>)
    returns (r: Reply)
    modifies db
    ensures db.tenants == old(db.tenants)
    ensures db.rows == After(db.tenants, old(db.rows), Revoke(tenant, user, amount, key))
    ensures r == Answer(db.tenants, old(db.rows), Revoke(tenant, user, amount, key))
  {
    assert RowOf(Revoke(tenant, user, amount, key)) == Entry(tenant, OrUndefined(user), REVOKED, amount, -amount, 0,
        key, None);
    var checked := NormalizePositiveAmount(amount);
    if checked.Err? {
      return Err(checked.error);
    }
    if tenant !in db.tenants {
      return Err(TENANT_NOT_FOUND);
    }
    var balance := db.GetBalanceProjection(tenant, user);
    if balance.available < amount {
      return Err(INSUFFICIENT_CREDITS);
    }
    r := WriteAdminLedgerEntry(db, tenant, user, REVOKED, amount, -amount, key);
  }

  method ReserveCredits(db: Table, tenant: string, user: Option<string>, amount: int, key: string)
    returns (r: Reply)
    modifies db
    ensures db.tenants == old(db.tenants)
    ensures db.rows == After(db.tenants, old(db.rows), Reserve(tenant, user, amount, key))
    ensures r == Answer(db.tenants, old(db.rows), Reserve(tenant, user, amount, key))
  {
    assert RowOf(Reserve(tenant, user, amount, key)) == Entry(tenant, OrUndefined(user), RESERVED, amount, -amount,
        amount, Some(key), None);
    var checked := NormalizePositiveAmount(amount);
    if checked.Err? {
      return Err(checked.error);
    }
    if Blank(key) {
      return Err(IDEMPOTENCY_KEY_REQUIRED);
    }
    var existing := db.FindIdempotentEntry(tenant, Some(key));
    if existing.Some? {
      return Ok(existing.value);
    }
    var balance := db.GetBalanceProjection(tenant, user);
    if balance.available < amount {
      return Err(INSUFFICIENT_CREDITS);
    }
    r := CreateLedgerEntry(db, tenant, user, RESERVED, amount, -amount, amount, Some(key));
  }

  method ConsumeReservedCredits(db: Table, tenant: string, user: Option<string>, amount: int, key: string)
    returns (r: Reply)
    modifies db
    ensures db.tenants == old(db.tenants)
    ensures db.rows == After(db.tenants, old(db.rows), Consume(tenant, user, amount, key))
    ensures r == Answer(db.tenants, old(db.rows), Consume(tenant, user, amount, key))
  {
    assert RowOf(Consume(tenant, user, amount, key)) == Entry(tenant, OrUndefined(user), CONSUMED, amount, 0, -amount,
        Some(key), None);
    var checked := NormalizePositiveAmount(amount);
    if checked.Err? {
      return Err(checked.error);
    }
    if Blank(key) {
      return Err(IDEMPOTENCY_KEY_REQUIRED);
    }
    var existing := db.FindIdempotentEntry(tenant, Some(key));
    if existing.Some? {
      return Ok(existing.value);
    }
    var balance := db.GetBalanceProjection(tenant, user);
    if balance.reserved < amount {
      return Err(INSUFFICIENT_RESERVED_CREDITS);
    }
    r := CreateLedgerEntry(db, tenant, user, CONSUMED, amount, 0, -amount, Some(key));
  }

  method ReleaseReservedCredits(db: Table, tenant: string, user: Option<string>, amount: int, key: string)
    returns (r: Reply)
    modifies db
    ensures db.tenants == old(db.tenants)
    ensures db.rows == After(db.tenants, old(db.rows), Release(tenant, user, amount, key))
    ensures r == Answer(db.tenants, old(db.rows), Release(tenant, user, amount, key))
  {
    assert RowOf(Release(tenant, user, amount, key)) == Entry(tenant, OrUndefined(user), RELEASED, amount, amount,
        -amount, Some(key), None);
    var checked := NormalizePositiveAmount(amount);
    if checked.Err? {
      return Err(checked.error);
    }
    if Blank(key) {
      return Err(IDEMPOTENCY_KEY_REQUIRED);
    }
    var existing := db.FindIdempotentEntry(tenant, Some(key));
    if existing.Some? {
      return Ok(existing.value);
    }
    var balance := db.GetBalanceProjection(tenant, user);
    if balance.reserved < amount {
      return Err(INSUFFICIENT_RESERVED_CREDITS);
    }
    r := CreateLedgerEntry(db, tenant, user, RELEASED, amount, amount, -amount, Some(key));
  }

  method RecordPurchasedCredits(db: Table, tenant: string, user: Option<string>, amount: int, key: string)
    returns (r: Reply)
    modifies db
    ensures db.tenants == old(db.tenants)
    ensures db.rows == After(db.tenants, old(db.rows), Purchase(tenant, user, amount, key))
    ensures r == Answer(db.tenants, old(db.rows), Purchase(tenant, user, amount, key))
  {
    var checked := NormalizePositiveAmount(amount);
    if checked.Err? {
      return Err(checked.error);
    }
    if Blank(key) {
      return Err(IDEMPOTENCY_KEY_REQUIRED);
    }
    var existing := db.FindIdempotentEntry(tenant, Some(key));
    if existing.Some? {
      return Ok(existing.value);
    }
    r := CreateLedgerEntry(db, tenant, user, PURCHASED, amount, amount, 0, Some(key));
  }

  /** `grantInitialRegistrationBonus`: writes the user id as given, without `|| undefined`. */
  method GrantInitialRegistrationBonus(db: Table, tenant: string, user: string) returns (r: Reply)
    modifies db
    ensures db.tenants == old(db.tenants)
    ensures db.rows == After(db.tenants, old(db.rows), Bonus(tenant, user))
    ensures r == Answer(db.tenants, old(db.rows), Bonus(tenant, user))
  {
    var key := "registration-bonus:" + user;
    var existing := db.FindIdempotentEntry(tenant, Some(key));
    if existing.Some? {
      return Ok(existing.value);
    }
    var stored := db.Create(Entry(tenant, Some(user), GRANTED, INITIAL_REGISTRATION_BONUS_CREDITS,
      INITIAL_REGISTRATION_BONUS_CREDITS, 0, Some(key), None));
    match stored {
      case Ok(e) => r := Ok(e);
      case Err(err) => r := Err(DATABASE(err));
    }
  }
}
