/** The append-only ledger table. Balances are never stored: they are folds over the rows in scope.
    The credit ledger and the QTAG ledger have the same columns and the same
    (tenantId, idempotencyKey) uniqueness rule, so both facets use this module. */
module LedgerTable {
  import opened Common

  datatype EntryType =
    | PURCHASED | GRANTED | ADJUSTED | RESERVED | CONSUMED | RELEASED | REFUNDED | REVOKED | EXPIRED

  datatype Entry = Entry(
    tenantId: string,
    userId: Option<string>,
    entryType: EntryType,
    amount: int,
    availableDelta: int,
    reservedDelta: int,
    idempotencyKey: Option<string>,
    orderId: Option<string>
  )

  datatype Balance = Balance(
    available: int,
    reserved: int,
    purchased: int,
    granted: int,
    adjusted: int,
    consumed: int,
    released: int,
    revoked: int,
    entryCount: nat
  )

  datatype DbError = FOREIGN_KEY | UNIQUE

  /** `userId || undefined` on the way into the table. */
  function OrUndefined(user: Option<string>): Option<string> {
    if Real(user) then user else None
  }

  predicate Blank(s: string) {
    forall i :: 0 <= i < |s| ==> IsSpace(s[i])
  }

  predicate InScope(e: Entry, tenant: string, user: Option<string>) {
    e.tenantId == tenant && (Real(user) ==> e.userId == user)
  }

  function AvailableIn(tenant: string, user: Option<string>): Entry -> int {
    (e: Entry) => if InScope(e, tenant, user) then e.availableDelta else 0
  }

  function ReservedIn(tenant: string, user: Option<string>): Entry -> int {
    (e: Entry) => if InScope(e, tenant, user) then e.reservedDelta else 0
  }

  function AmountIn(tenant: string, user: Option<string>, t: EntryType): Entry -> int {
    (e: Entry) => if InScope(e, tenant, user) && e.entryType == t then e.amount else 0
  }

  function CountIn(tenant: string, user: Option<string>): Entry -> int {
    (e: Entry) => if InScope(e, tenant, user) then 1 else 0
  }

  function Available(rows: seq<Entry>, tenant: string, user: Option<string>): int {
    Sum(rows, AvailableIn(tenant, user))
  }

  function Reserved(rows: seq<Entry>, tenant: string, user: Option<string>): int {
    Sum(rows, ReservedIn(tenant, user))
  }

  function Amount(rows: seq<Entry>, tenant: string, user: Option<string>, t: EntryType): int {
    Sum(rows, AmountIn(tenant, user, t))
  }

  predicate HasKeyAt(e: Entry, tenant: string, key: string) {
    e.tenantId == tenant && e.idempotencyKey == Some(key)
  }

  ghost predicate HasKey(rows: seq<Entry>, tenant: string, key: string) {
    exists i :: 0 <= i < |rows| && HasKeyAt(rows[i], tenant, key)
  }

  /** The database constraint on (tenantId, idempotencyKey); absent keys never clash. */
  ghost predicate UniqueKeys(rows: seq<Entry>) {
    forall i, j, key {:trigger HasKeyAt(rows[i], rows[i].tenantId, key), HasKeyAt(rows[j], rows[i].tenantId, key)} ::
      0 <= i < j < |rows| && HasKeyAt(rows[i], rows[i].tenantId, key) ==> !HasKeyAt(rows[j], rows[i].tenantId, key)
  }

  function Find(rows: seq<Entry>, tenant: string, key: string): (r: Option<Entry>)
    ensures r.Some? <==> HasKey(rows, tenant, key)
    ensures r.Some? ==> r.value in rows && HasKeyAt(r.value, tenant, key)
  {
    if rows == [] then None
    else
      var n := |rows| - 1;
      if HasKeyAt(rows[n], tenant, key) then Some(rows[n])
      else
        assert forall i :: 0 <= i < n ==> rows[..n][i] == rows[i];
        Find(rows[..n], tenant, key)
  }

  /** What one more row does to every balance and every key lookup. */
  lemma AppendRow(rows: seq<Entry>, e: Entry)
    ensures forall t, u :: Available(rows + [e], t, u) == Available(rows, t, u) + AvailableIn(t, u)(e)
    ensures forall t, u :: Reserved(rows + [e], t, u) == Reserved(rows, t, u) + ReservedIn(t, u)(e)
    ensures forall t, u, k :: Amount(rows + [e], t, u, k) == Amount(rows, t, u, k) + AmountIn(t, u, k)(e)
    ensures forall t, key :: HasKey(rows + [e], t, key) <==> HasKey(rows, t, key) || HasKeyAt(e, t, key)
    ensures forall t, key :: HasKey(rows, t, key) ==> Find(rows + [e], t, key) == if HasKeyAt(e, t, key) then Some(e)
            else Find(rows, t, key)
  {
    forall t, u ensures Available(rows + [e], t, u) == Available(rows, t, u) + AvailableIn(t, u)(e) {
      SumAppend(rows, e, AvailableIn(t, u));
    }
    forall t, u ensures Reserved(rows + [e], t, u) == Reserved(rows, t, u) + ReservedIn(t, u)(e) {
      SumAppend(rows, e, ReservedIn(t, u));
    }
    forall t, u, k ensures Amount(rows + [e], t, u, k) == Amount(rows, t, u, k) + AmountIn(t, u, k)(e) {
      SumAppend(rows, e, AmountIn(t, u, k));
    }
    forall t, key ensures HasKey(rows + [e], t, key) <==> HasKey(rows, t, key) || HasKeyAt(e, t, key) {
      if HasKey(rows, t, key) {
        var i :| 0 <= i < |rows| && HasKeyAt(rows[i], t, key);
        assert (rows + [e])[i] == rows[i];
      }
      if HasKeyAt(e, t, key) {
        assert (rows + [e])[|rows|] == e;
      }
    }
    assert (rows + [e])[..|rows|] == rows;
  }

  lemma AppendKeepsKeysUnique(rows: seq<Entry>, e: Entry)
    requires UniqueKeys(rows)
    requires forall key :: HasKeyAt(e, e.tenantId, key) ==> !HasKey(rows, e.tenantId, key)
    ensures UniqueKeys(rows + [e])
  {
    var after := rows + [e];
    forall i, j, key | 0 <= i < j < |after| && HasKeyAt(after[i], after[i].tenantId, key)
      ensures !HasKeyAt(after[j], after[i].tenantId, key)
    {
      assert after[i] == rows[i];
      if j < |rows| {
        assert after[j] == rows[j];
      } else if HasKeyAt(e, rows[i].tenantId, key) {
        assert HasKey(rows, e.tenantId, key);
      }
    }
  }

  /** What `getBalanceProjection` reports for a scope. */
  function Projection(rows: seq<Entry>, tenant: string, user: Option<string>): Balance {
    Balance(
      Available(rows, tenant, user),
      Reserved(rows, tenant, user),
      Amount(rows, tenant, user, PURCHASED),
      Amount(rows, tenant, user, GRANTED),
      Amount(rows, tenant, user, ADJUSTED),
      Amount(rows, tenant, user, CONSUMED),
      Amount(rows, tenant, user, RELEASED),
      Amount(rows, tenant, user, REVOKED),
      Count(rows, tenant, user)
    )
  }

  function Count(rows: seq<Entry>, tenant: string, user: Option<string>): nat {
    CountIsNat(rows, tenant, user);
    Sum(rows, CountIn(tenant, user))
  }

  lemma {:induction false} CountIsNat(rows: seq<Entry>, tenant: string, user: Option<string>)
    ensures Sum(rows, CountIn(tenant, user)) >= 0
  {
    if rows == [] {
    } else {
      CountIsNat(rows[..|rows| - 1], tenant, user);
    }
  }

  /** The query behind the projection has no ORDER BY; the report does not depend on the row order. */
  lemma ProjectionIgnoresOrder(rows: seq<Entry>, shuffled: seq<Entry>, tenant: string, user: Option<string>)
    requires multiset(rows) == multiset(shuffled)
    ensures Projection(rows, tenant, user) == Projection(shuffled, tenant, user)
  {
    SumPermutation(rows, shuffled, AvailableIn(tenant, user));
    SumPermutation(rows, shuffled, ReservedIn(tenant, user));
    SumPermutation(rows, shuffled, CountIn(tenant, user));
    forall t ensures Amount(rows, tenant, user, t) == Amount(shuffled, tenant, user, t) {
      SumPermutation(rows, shuffled, AmountIn(tenant, user, t));
    }
  }

  /** The table with the three database accesses the facets make. */
  class Table {
    var tenants: set<string>
    var rows: seq<Entry>

    constructor (tenants: set<string>)
      ensures this.tenants == tenants && rows == []
    {
      this.tenants := tenants;
      rows := [];
    }

    method FindIdempotentEntry(tenant: string, key: Option<string>) returns (r: Option<Entry>)
      ensures r == if key.None? || key.value == "" then None else Find(rows, tenant, key.value)
    {
      r := None;
      if key.None? || key.value == "" {
        return;
      }
      for i := 0 to |rows|
        invariant r == Find(rows[..i], tenant, key.value)
      {
        assert rows[..i + 1][..i] == rows[..i];
        if HasKeyAt(rows[i], tenant, key.value) {
          r := Some(rows[i]);
        }
      }
      assert rows[..|rows|] == rows;
    }

    method GetBalanceProjection(tenant: string, user: Option<string>) returns (b: Balance)
      ensures b == Projection(rows, tenant, user)
    {
      var available, reserved := 0, 0;
      var byType: map<EntryType, int> := map[];
      var entryCount := 0;
      for i := 0 to |rows|
        invariant available == Available(rows[..i], tenant, user)
        invariant reserved == Reserved(rows[..i], tenant, user)
        invariant entryCount == Count(rows[..i], tenant, user)
        invariant forall t :: Amount(rows[..i], tenant, user, t) == if t in byType then byType[t] else 0
      {
        assert rows[..i + 1][..i] == rows[..i];
        var e := rows[i];
        if InScope(e, tenant, user) {
          available := available + e.availableDelta;
          reserved := reserved + e.reservedDelta;
          var soFar := if e.entryType in byType then byType[e.entryType] else 0;
          byType := byType[e.entryType := soFar + e.amount];
          entryCount := entryCount + 1;
        }
      }
      assert rows[..|rows|] == rows;
      b := Balance(available, reserved, OrZero(byType, PURCHASED), OrZero(byType, GRANTED), OrZero(byType, ADJUSTED),
        OrZero(byType, CONSUMED), OrZero(byType, RELEASED), OrZero(byType, REVOKED), entryCount);
    }

    /** `create`: refused by the tenant foreign key or by the uniqueness rule, otherwise one row more. */
    method Create(e: Entry) returns (r: Result<Entry, DbError>)
      modifies this
      ensures tenants == old(tenants)
      ensures rows == if Insertable(old(tenants), old(rows), e).Some? then old(rows) else old(rows) + [e]
      ensures r == match Insertable(old(tenants), old(rows), e) case Some(err) => Err(err) case None => Ok(e)
    {
      if e.tenantId !in tenants {
        return Err(FOREIGN_KEY);
      }
      if e.idempotencyKey.Some? {
        for i := 0 to |rows|
          invariant !HasKey(rows[..i], e.tenantId, e.idempotencyKey.value)
        {
          if HasKeyAt(rows[i], e.tenantId, e.idempotencyKey.value) {
            return Err(UNIQUE);
          }
        }
        assert rows[..|rows|] == rows;
      }
      rows := rows + [e];
      return Ok(e);
    }
  }

  function OrZero(byType: map<EntryType, int>, t: EntryType): int {
    if t in byType then byType[t] else 0
  }

  /** Why the database would refuse a row, if it would. */
  function Insertable(tenants: set<string>, rows: seq<Entry>, e: Entry): Option<DbError> {
    if e.tenantId !in tenants then Some(FOREIGN_KEY)
    else if e.idempotencyKey.Some? && Find(rows, e.tenantId, e.idempotencyKey.value).Some? then Some(UNIQUE)
    else None
  }
}
