/** What holds of the credit ledger over every serial run of its calls. */
module CreditLedgerProofs {
  import opened Common
  import opened LedgerTable
  import opened CreditLedger

  /** The table after a run of calls, accepted or refused, in any mixture of scopes. */
  function Run(tenants: set<string>, rows: seq<Entry>, calls: seq<Call>): seq<Entry>
    decreases |calls|
  {
    if calls == [] then rows else Run(tenants, After(tenants, rows, calls[0]), calls[1..])
  }

  // ----- the invariant -----

  predicate WellShaped(e: Entry) {
    e.amount > 0 &&
    match e.entryType
    case PURCHASED => e.availableDelta == e.amount && e.reservedDelta == 0
    case GRANTED => e.availableDelta == e.amount && e.reservedDelta == 0
    case ADJUSTED => (e.availableDelta == e.amount || e.availableDelta == -e.amount) && e.reservedDelta == 0
    case REVOKED => e.availableDelta == -e.amount && e.reservedDelta == 0
    case RESERVED => e.availableDelta == -e.amount && e.reservedDelta == e.amount
    case CONSUMED => e.availableDelta == 0 && e.reservedDelta == -e.amount
    case RELEASED => e.availableDelta == e.amount && e.reservedDelta == -e.amount
    case _ => false
  }

  ghost predicate Sound(rows: seq<Entry>) {
    && (forall i :: 0 <= i < |rows| ==> WellShaped(rows[i]))
    && UniqueKeys(rows)
    && (forall t, u :: Real(u) ==> Available(rows, t, u) >= 0)
    && (forall t, u :: Real(u) ==> Reserved(rows, t, u) >= 0)
  }

  lemma CallKeepsSound(tenants: set<string>, rows: seq<Entry>, c: Call)
    requires Sound(rows)
    ensures Sound(After(tenants, rows, c))
  {
    if Writes(tenants, rows, c) {
      var e := RowOf(c);
      AppendRow(rows, e);
      forall key | HasKeyAt(e, e.tenantId, key) ensures !HasKey(rows, e.tenantId, key) {
        assert e.idempotencyKey == c.Key();
      }
      AppendKeepsKeysUnique(rows, e);
    }
  }

  lemma {:induction false} RunKeepsSound(tenants: set<string>, rows: seq<Entry>, calls: seq<Call>)
    requires Sound(rows)
    ensures Sound(Run(tenants, rows, calls))
    decreases |calls|
  {
    if calls == [] {
    } else {
      CallKeepsSound(tenants, rows, calls[0]);
      RunKeepsSound(tenants, After(tenants, rows, calls[0]), calls[1..]);
    }
  }

  /** Every real user's available and reserved sums stay non-negative, and no two rows of a tenant share a key. */
  lemma BalancesNeverNegative(tenants: set<string>, calls: seq<Call>, tenant: string, user: Option<string>)
    requires Real(user)
    ensures var rows := Run(tenants, [], calls);
            Available(rows, tenant, user) >= 0 && Reserved(rows, tenant, user) >= 0 && UniqueKeys(rows)
  {
    RunKeepsSound(tenants, [], calls);
  }

  // ----- getSummary -----

  datatype Summary = Summary(creditsBalance: int, reserved: int, consumed: int)

  function Clamp(n: int): int {
    if n < 0 then 0 else n
  }

  /** `getSummary` filters on the user id as given, even an empty one. */
  predicate Own(e: Entry, tenant: string, user: string) {
    e.tenantId == tenant && e.userId == Some(user)
  }

  function OwnAvailable(tenant: string, user: string): Entry -> int {
    (e: Entry) => if Own(e, tenant, user) then e.availableDelta else 0
  }

  function OwnReserved(tenant: string, user: string): Entry -> int {
    (e: Entry) => if Own(e, tenant, user) then e.reservedDelta else 0
  }

  function OwnConsumed(tenant: string, user: string): Entry -> int {
    (e: Entry) => if Own(e, tenant, user) && e.entryType == CONSUMED then e.amount else 0
  }

  function SummaryOf(rows: seq<Entry>, tenant: string, user: string): Summary {
    Summary(Clamp(Sum(rows, OwnAvailable(tenant, user))), Clamp(Sum(rows, OwnReserved(tenant, user))),
            Sum(rows, OwnConsumed(tenant, user)))
  }

  method GetSummary(db: Table, tenant: string, user: string) returns (s: Summary)
    ensures s == SummaryOf(db.rows, tenant, user)
  {
    var creditsBalance, reserved, consumed := 0, 0, 0;
    for i := 0 to |db.rows|
      invariant creditsBalance == Sum(db.rows[..i], OwnAvailable(tenant, user))
      invariant reserved == Sum(db.rows[..i], OwnReserved(tenant, user))
      invariant consumed == Sum(db.rows[..i], OwnConsumed(tenant, user))
    {
      assert db.rows[..i + 1][..i] == db.rows[..i];
      var e := db.rows[i];
      if e.tenantId == tenant && e.userId == Some(user) {
        creditsBalance := creditsBalance + e.availableDelta;
        reserved := reserved + e.reservedDelta;
        if e.entryType == CONSUMED {
          consumed := consumed + e.amount;
        }
      }
    }
    assert db.rows[..|db.rows|] == db.rows;
    s := Summary(if creditsBalance < 0 then 0 else creditsBalance, if reserved < 0 then 0 else reserved, consumed);
  }

  lemma OwnRowsAreTheScope(rows: seq<Entry>, tenant: string, user: string)
    requires user != ""
    ensures Sum(rows, OwnAvailable(tenant, user)) == Available(rows, tenant, Some(user))
    ensures Sum(rows, OwnReserved(tenant, user)) == Reserved(rows, tenant, Some(user))
    ensures Sum(rows, OwnConsumed(tenant, user)) == Amount(rows, tenant, Some(user), CONSUMED)
  {
    SumEqual(rows, OwnAvailable(tenant, user), AvailableIn(tenant, Some(user)));
    SumEqual(rows, OwnReserved(tenant, user), ReservedIn(tenant, Some(user)));
    SumEqual(rows, OwnConsumed(tenant, user), AmountIn(tenant, Some(user), CONSUMED));
  }

  /** Only the bonus writes an empty user id as given; every other call stores none. */
  lemma {:induction false} EmptyUserHasOnlyBonuses(tenants: set<string>, rows: seq<Entry>, calls: seq<Call>,
                                                   tenant: string)
    requires Sum(rows, OwnAvailable(tenant, "")) >= 0 && Sum(rows, OwnReserved(tenant, "")) == 0
    ensures Sum(Run(tenants, rows, calls), OwnAvailable(tenant, "")) >= 0
    ensures Sum(Run(tenants, rows, calls), OwnReserved(tenant, "")) == 0
    decreases |calls|
  {
    if calls == [] {
    } else {
      SumAppend(rows, RowOf(calls[0]), OwnAvailable(tenant, ""));
      SumAppend(rows, RowOf(calls[0]), OwnReserved(tenant, ""));
      EmptyUserHasOnlyBonuses(tenants, After(tenants, rows, calls[0]), calls[1..], tenant);
    }
  }

  /** The clamps in `getSummary` never bite; for a real user it reports what `getBalanceProjection` reports. */
  lemma SummaryIsTheProjection(tenants: set<string>, calls: seq<Call>, tenant: string, user: string)
    ensures var rows := Run(tenants, [], calls);
            var s := SummaryOf(rows, tenant, user);
            && s.creditsBalance == Sum(rows, OwnAvailable(tenant, user))
               && s.reserved == Sum(rows, OwnReserved(tenant, user))
            && (user != "" ==>
                  var p := Projection(rows, tenant, Some(user));
                  s == Summary(p.available, p.reserved, p.consumed))
  {
    if user == "" {
      EmptyUserHasOnlyBonuses(tenants, [], calls, tenant);
    } else {
      OwnRowsAreTheScope(Run(tenants, [], calls), tenant, user);
      BalancesNeverNegative(tenants, calls, tenant, Some(user));
    }
  }

  // ----- conservation -----

  function AdjustmentIn(tenant: string, user: Option<string>): Entry -> int {
    (e: Entry) => if InScope(e, tenant, user) && e.entryType == ADJUSTED then e.availableDelta else 0
  }

  lemma {:induction false} WellShapedRowsConserve(rows: seq<Entry>, tenant: string, user: Option<string>)
    requires forall i :: 0 <= i < |rows| ==> WellShaped(rows[i])
    ensures Available(rows, tenant, user) + Reserved(rows, tenant, user)
              + Amount(rows, tenant, user, CONSUMED) + Amount(rows, tenant, user, REVOKED)
            == Amount(rows, tenant, user, PURCHASED) + Amount(rows, tenant, user, GRANTED)
              + Sum(rows, AdjustmentIn(tenant, user))
  {
    if rows == [] {
    } else {
      WellShapedRowsConserve(rows[..|rows| - 1], tenant, user);
      assert WellShaped(rows[|rows| - 1]);
    }
  }

  /** Credits are conserved in every scope: what is left, spent or revoked is what came in. */
  lemma CreditsAreConserved(tenants: set<string>, calls: seq<Call>, tenant: string, user: Option<string>)
    ensures var rows := Run(tenants, [], calls);
            var p := Projection(rows, tenant, user);
            p.available + p.reserved + p.consumed + p.revoked
            == p.purchased + p.granted + Sum(rows, AdjustmentIn(tenant, user))
  {
    RunKeepsSound(tenants, [], calls);
    WellShapedRowsConserve(Run(tenants, [], calls), tenant, user);
  }

  predicate Downward(e: Entry, tenant: string, user: Option<string>) {
    InScope(e, tenant, user) && e.entryType == ADJUSTED && e.availableDelta < 0
  }

  lemma {:induction false} AdjustedAboveSigned(rows: seq<Entry>, tenant: string, user: Option<string>)
    requires forall i :: 0 <= i < |rows| ==> WellShaped(rows[i])
    ensures Amount(rows, tenant, user, ADJUSTED) >= Sum(rows, AdjustmentIn(tenant, user))
    ensures (Amount(rows, tenant, user, ADJUSTED) == Sum(rows, AdjustmentIn(tenant, user)))
            <==> (forall e :: e in rows ==> !Downward(e, tenant, user))
  {
    if rows == [] {
    } else {
      var n := |rows| - 1;
      AdjustedAboveSigned(rows[..n], tenant, user);
      assert WellShaped(rows[n]);
      assert forall e :: e in rows <==> e in rows[..n] || e == rows[n] by {
        assert rows == rows[..n] + [rows[n]];
      }
      assert AmountIn(tenant, user, ADJUSTED)(rows[n]) == AdjustmentIn(tenant, user)(rows[n]) <==>
          !Downward(rows[n], tenant, user);
    }
  }

  /** The reported `adjusted` adds up absolute values, so the report balances by itself exactly when
      no downward adjustment was made in the scope. */
  lemma ReportBalancesIffNoDownwardAdjustment(tenants: set<string>, calls: seq<Call>, tenant: string,
                                              user: Option<string>)
    ensures var rows := Run(tenants, [], calls);
            var p := Projection(rows, tenant, user);
            (p.available + p.reserved + p.consumed + p.revoked == p.purchased + p.granted + p.adjusted)
            <==> (forall e :: e in rows ==> !Downward(e, tenant, user))
  {
    CreditsAreConserved(tenants, calls, tenant, user);
    RunKeepsSound(tenants, [], calls);
    AdjustedAboveSigned(Run(tenants, [], calls), tenant, user);
  }

  // ----- exactly once -----

  function Answers(tenants: set<string>, rows: seq<Entry>, calls: seq<Call>): seq<Reply>
    decreases |calls|
  {
    if calls == [] then []
    else [Answer(tenants, rows, calls[0])] + Answers(tenants, After(tenants, rows, calls[0]), calls[1..])
  }

  /** The items whose flag is not set. */
  function Keep<T>(items: seq<T>, drop: seq<bool>): seq<T>
    requires |drop| == |items|
  {
    if items == [] then []
    else (if drop[0] then [] else [items[0]]) + Keep(items[1..], drop[1..])
  }

  /** Every dropped call repeats the tenant and key of an earlier call of the run that succeeded. */
  predicate DropsOnlyRetries(tenants: set<string>, rows: seq<Entry>, done: set<(string, string)>, calls: seq<Call>,
                             drop: seq<bool>)
    requires |drop| == |calls|
    decreases |calls|
  {
    calls == [] ||
    var c := calls[0];
    && (drop[0] ==> c.Key().Some? && (c.tenant, c.Key().value) in done)
    && DropsOnlyRetries(tenants, After(tenants, rows, c),
                        if Answer(tenants, rows, c).Ok? && c.Key().Some? then done + {(c.tenant, c.Key().value)}
                            else done,
                        calls[1..], drop[1..])
  }

  lemma SuccessLeavesItsKey(tenants: set<string>, rows: seq<Entry>, c: Call)
    requires Answer(tenants, rows, c).Ok? && c.Key().Some?
    ensures HasKey(After(tenants, rows, c), c.tenant, c.Key().value)
  {
    AppendRow(rows, RowOf(c));
    assert HasKeyAt(RowOf(c), c.tenant, c.Key().value);
  }

  lemma KeysStay(tenants: set<string>, rows: seq<Entry>, c: Call)
    ensures forall t, key :: HasKey(rows, t, key) ==> HasKey(After(tenants, rows, c), t, key)
  {
    AppendRow(rows, RowOf(c));
  }

  /** A call whose key is already in its tenant's ledger writes nothing, whether it is answered or throws. */
  lemma RetryWritesNothing(tenants: set<string>, rows: seq<Entry>, c: Call)
    requires c.Key().Some? && HasKey(rows, c.tenant, c.Key().value)
    ensures After(tenants, rows, c) == rows
  {
    assert RowOf(c).idempotencyKey == c.Key() && RowOf(c).tenantId == c.tenant;
  }

  lemma {:induction false} RetriesAreRedundant(tenants: set<string>, rows: seq<Entry>, done: set<(string, string)>,
                                               calls: seq<Call>, drop: seq<bool>)
    requires |drop| == |calls|
    requires forall t, key :: (t, key) in done ==> HasKey(rows, t, key)
    requires DropsOnlyRetries(tenants, rows, done, calls, drop)
    ensures |Answers(tenants, rows, calls)| == |calls|
    ensures Run(tenants, rows, calls) == Run(tenants, rows, Keep(calls, drop))
    ensures Keep(Answers(tenants, rows, calls), drop) == Answers(tenants, rows, Keep(calls, drop))
    decreases |calls|
  {
    if calls == [] {
    } else {
      var c := calls[0];
      var rest := After(tenants, rows, c);
      KeysStay(tenants, rows, c);
      var done' := if Answer(tenants, rows, c).Ok? && c.Key().Some? then done + {(c.tenant, c.Key().value)} else done;
      if Answer(tenants, rows, c).Ok? && c.Key().Some? {
        SuccessLeavesItsKey(tenants, rows, c);
      }
      RetriesAreRedundant(tenants, rest, done', calls[1..], drop[1..]);
      var kept := Keep(calls[1..], drop[1..]);
      assert Answers(tenants, rows, calls)[1..] == Answers(tenants, rest, calls[1..]);
      if drop[0] {
        RetryWritesNothing(tenants, rows, c);
        assert Keep(calls, drop) == kept;
      } else {
        assert Keep(calls, drop) == [c] + kept;
        assert ([c] + kept)[1..] == kept;
      }
    }
  }

  /** Exactly once: dropping from a run any keyed calls that follow a success with the same tenant and key
      changes neither the final ledger nor the answer to any call that is kept. */
  lemma ExactlyOnce(tenants: set<string>, calls: seq<Call>, drop: seq<bool>)
    requires |drop| == |calls|
    requires DropsOnlyRetries(tenants, [], {}, calls, drop)
    ensures |Answers(tenants, [], calls)| == |calls|
    ensures Run(tenants, [], calls) == Run(tenants, [], Keep(calls, drop))
    ensures Keep(Answers(tenants, [], calls), drop) == Answers(tenants, [], Keep(calls, drop))
  {
    RetriesAreRedundant(tenants, [], {}, calls, drop);
  }

  /** An operational retry of the same call is answered with the row the first one wrote. */
  lemma OperationalRetryGetsTheFirstRow(tenants: set<string>, rows: seq<Entry>, c: Call, between: seq<Call>)
    requires Sound(rows) && !c.Admin() && Writes(tenants, rows, c)
    ensures Answer(tenants, Run(tenants, After(tenants, rows, c), between), c) == Ok(RowOf(c))
  {
    var first := After(tenants, rows, c);
    AppendRow(rows, RowOf(c));
    CallKeepsSound(tenants, rows, c);
    FoundRowStays(tenants, first, between, c.tenant, c.Key().value);
    assert c.Key().value != "";
  }

  lemma {:induction false} FoundRowStays(tenants: set<string>, rows: seq<Entry>, calls: seq<Call>, tenant: string,
                                         key: string)
    requires Sound(rows) && HasKey(rows, tenant, key)
    ensures Find(Run(tenants, rows, calls), tenant, key) == Find(rows, tenant, key)
    decreases |calls|
  {
    if calls == [] {
    } else {
      var c := calls[0];
      AppendRow(rows, RowOf(c));
      CallKeepsSound(tenants, rows, c);
      if Writes(tenants, rows, c) && HasKeyAt(RowOf(c), tenant, key) {
        RetryWritesNothing(tenants, rows, c);
      }
      FoundRowStays(tenants, After(tenants, rows, c), calls[1..], tenant, key);
    }
  }

  // ----- mixed scopes -----

  /** A call without a user checks the tenant's total but writes a row no user owns, so the tenant's total
      can go below zero while every user's stays non-negative. */
  lemma MixedScopesCanOverdrawTheTenant()
    ensures var u := Some("u");
            var calls := [Grant("t", u, 5, None), Revoke("t", None, 5, None), Reserve("t", u, 5, "k")];
            var rows := Run({"t"}, [], calls);
            Available(rows, "t", None) == -5 && Available(rows, "t", u) == 0
  {
    var u := Some("u");
    var c0, c1, c2 := Grant("t", u, 5, None), Revoke("t", None, 5, None), Reserve("t", u, 5, "k");
    var tenants := {"t"};
    var rows1 := [RowOf(c0)];
    assert After(tenants, [], c0) == rows1;
    AppendRow([], RowOf(c0));
    assert [] + [RowOf(c0)] == rows1;
    AppendRow(rows1, RowOf(c1));
    var rows2 := rows1 + [RowOf(c1)];
    assert After(tenants, rows1, c1) == rows2;
    AppendRow(rows2, RowOf(c2));
    assert !IsSpace("k"[0]);
    assert !HasKey(rows2, "t", "k");
    assert After(tenants, rows2, c2) == rows2 + [RowOf(c2)];
    var rows3 := rows2 + [RowOf(c2)];
    var calls := [c0, c1, c2];
    assert calls[1..] == [c1, c2] && [c1, c2][1..] == [c2] && [c2][1..] == [];
    assert Run(tenants, rows2, [c2]) == rows3;
    assert Run(tenants, rows1, [c1, c2]) == rows3;
    assert Run(tenants, [], calls) == rows3;
  }

  function UserlessIn(tenant: string): Entry -> int {
    (e: Entry) => if e.tenantId == tenant && !Real(e.userId) then e.availableDelta else 0
  }

  /** The rows that a user of this tenant does not own. */
  function Without(rows: seq<Entry>, tenant: string, user: Option<string>): (r: seq<Entry>)
    ensures |r| <= |rows|
  {
    if rows == [] then []
    else
      var e := rows[|rows| - 1];
      Without(rows[..|rows| - 1], tenant, user) + if e.tenantId == tenant && e.userId == user then [] else [e]
  }

  lemma {:induction false} WithoutSplits(rows: seq<Entry>, tenant: string, user: Option<string>)
    requires Real(user)
    ensures Available(rows, tenant, None) == Available(Without(rows, tenant, user), tenant, None)
            + Available(rows, tenant, user)
    ensures Sum(rows, UserlessIn(tenant)) == Sum(Without(rows, tenant, user), UserlessIn(tenant))
    ensures Available(Without(rows, tenant, user), tenant, user) == 0
    ensures forall v :: Real(v) && v != user ==>
            Available(Without(rows, tenant, user), tenant, v)
            == Available(rows, tenant, v)
  {
    if rows == [] {
    } else {
      var n := |rows| - 1;
      var e := rows[n];
      var rest := Without(rows[..n], tenant, user);
      WithoutSplits(rows[..n], tenant, user);
      if e.tenantId == tenant && e.userId == user {
        assert rest + [] == rest;
      } else {
        AppendRow(rest, e);
        SumAppend(rest, e, UserlessIn(tenant));
      }
    }
  }

  /** The tenant's total is at least what the rows without a user add up to. */
  lemma {:induction false} TotalAboveUserless(rows: seq<Entry>, tenant: string)
    requires forall u :: Real(u) ==> Available(rows, tenant, u) >= 0
    ensures Available(rows, tenant, None) >= Sum(rows, UserlessIn(tenant))
    decreases |rows|
  {
    if rows == [] {
    } else {
      var n := |rows| - 1;
      var e := rows[n];
      if e.tenantId == tenant && Real(e.userId) {
        var rest := Without(rows, tenant, e.userId);
        WithoutSplits(rows, tenant, e.userId);
        TotalAboveUserless(rest, tenant);
      } else {
        assert forall u :: Real(u) ==> Available(rows, tenant, u) == Available(rows[..n], tenant, u);
        TotalAboveUserless(rows[..n], tenant);
      }
    }
  }

  predicate UserlessDebit(c: Call, tenant: string) {
    c.tenant == tenant && !Real(c.Scope()) && RowOf(c).availableDelta < 0
  }

  lemma {:induction false} UserlessRowsStayNonNegative(tenants: set<string>, rows: seq<Entry>, calls: seq<Call>,
                                                       tenant: string)
    requires Sum(rows, UserlessIn(tenant)) >= 0
    requires forall i :: 0 <= i < |calls| ==> !UserlessDebit(calls[i], tenant)
    ensures Sum(Run(tenants, rows, calls), UserlessIn(tenant)) >= 0
    decreases |calls|
  {
    if calls == [] {
    } else {
      assert !UserlessDebit(calls[0], tenant);
      SumAppend(rows, RowOf(calls[0]), UserlessIn(tenant));
      UserlessRowsStayNonNegative(tenants, After(tenants, rows, calls[0]), calls[1..], tenant);
    }
  }

  /** Without user-less debits in a tenant, its total never goes below zero either. */
  lemma TenantTotalNonNegative(tenants: set<string>, calls: seq<Call>, tenant: string)
    requires forall i :: 0 <= i < |calls| ==> !UserlessDebit(calls[i], tenant)
    ensures Available(Run(tenants, [], calls), tenant, None) >= 0
  {
    RunKeepsSound(tenants, [], calls);
    UserlessRowsStayNonNegative(tenants, [], calls, tenant);
    TotalAboveUserless(Run(tenants, [], calls), tenant);
  }

  /** Once no real user holds anything, the tenant's total is what the rows without a user add up to. */
  lemma {:induction false} TotalIsUserless(rows: seq<Entry>, tenant: string)
    requires forall u :: Real(u) ==> Available(rows, tenant, u) == 0
    ensures Available(rows, tenant, None) == Sum(rows, UserlessIn(tenant))
    decreases |rows|
  {
    if rows == [] {
    } else {
      var n := |rows| - 1;
      var e := rows[n];
      if e.tenantId == tenant && Real(e.userId) {
        WithoutSplits(rows, tenant, e.userId);
        TotalIsUserless(Without(rows, tenant, e.userId), tenant);
      } else {
        assert forall u :: Real(u) ==> Available(rows, tenant, u) == Available(rows[..n], tenant, u);
        TotalIsUserless(rows[..n], tenant);
      }
    }
  }

  /** A call of this tenant that names no real user. */
  predicate UserlessCall(c: Call, tenant: string) {
    c.tenant == tenant && !Real(c.Scope())
  }

  ghost predicate NoUserlessCall(calls: seq<Call>, tenant: string) {
    forall i :: 0 <= i < |calls| ==> !UserlessCall(calls[i], tenant)
  }

  lemma CallLeavesUserlessSum(tenants: set<string>, rows: seq<Entry>, c: Call, tenant: string)
    requires !UserlessCall(c, tenant)
    ensures Sum(After(tenants, rows, c), UserlessIn(tenant)) == Sum(rows, UserlessIn(tenant))
  {
    SumAppend(rows, RowOf(c), UserlessIn(tenant));
  }

  lemma {:induction false} RestHasNoUserlessCall(calls: seq<Call>, tenant: string)
    requires calls != [] && NoUserlessCall(calls, tenant)
    ensures !UserlessCall(calls[0], tenant) && NoUserlessCall(calls[1..], tenant)
  {
    forall i | 0 <= i < |calls| - 1 ensures !UserlessCall(calls[1..][i], tenant) {
      assert calls[1..][i] == calls[i + 1];
    }
  }

  lemma {:induction false} UserlessSumStays(tenants: set<string>, rows: seq<Entry>, calls: seq<Call>, tenant: string)
    requires NoUserlessCall(calls, tenant)
    ensures Sum(Run(tenants, rows, calls), UserlessIn(tenant)) == Sum(rows, UserlessIn(tenant))
    decreases |calls|
  {
    if calls == [] {
    } else {
      RestHasNoUserlessCall(calls, tenant);
      CallLeavesUserlessSum(tenants, rows, calls[0], tenant);
      UserlessSumStays(tenants, After(tenants, rows, calls[0]), calls[1..], tenant);
    }
  }

  /** The users who own a row of the tenant. */
  function Owners(rows: seq<Entry>, tenant: string): set<Option<string>> {
    set i | 0 <= i < |rows| && rows[i].tenantId == tenant && Real(rows[i].userId) :: rows[i].userId
  }

  lemma {:induction false} StrangersHoldNothing(rows: seq<Entry>, tenant: string, u: Option<string>)
    requires Real(u) && u !in Owners(rows, tenant)
    ensures Available(rows, tenant, u) == 0
  {
    if rows == [] {
    } else {
      var n := |rows| - 1;
      assert rows[n].tenantId == tenant && Real(rows[n].userId) ==> rows[n].userId in Owners(rows, tenant);
      assert Owners(rows[..n], tenant) <= Owners(rows, tenant);
      StrangersHoldNothing(rows[..n], tenant, u);
    }
  }

  /** Revoking from a user all that is available leaves the user nothing and everyone else what they had. */
  lemma RevokingAll(tenants: set<string>, rows: seq<Entry>, tenant: string, u: Option<string>)
    requires tenant in tenants && Real(u) && Available(rows, tenant, u) > 0
    ensures var c := Revoke(tenant, u, Available(rows, tenant, u), None);
            var after := After(tenants, rows, c);
            && Available(after, tenant, u) == 0
            && (forall v :: Real(v) && v != u ==> Available(after, tenant, v) == Available(rows, tenant, v))
            && !UserlessCall(c, tenant)
  {
    AppendRow(rows, RowOf(Revoke(tenant, u, Available(rows, tenant, u), None)));
  }

  /** The users can be drained one after another, until the tenant's total is the sum of its user-less rows. */
  lemma {:induction false} Drain(tenants: set<string>, rows: seq<Entry>, tenant: string, users: set<Option<string>>)
    returns (calls: seq<Call>)
    requires tenant in tenants && Sound(rows)
    requires forall u <- users :: Real(u)
    requires forall u :: Real(u) && u !in users ==> Available(rows, tenant, u) == 0
    ensures NoUserlessCall(calls, tenant)
    ensures Available(Run(tenants, rows, calls), tenant, None) == Sum(rows, UserlessIn(tenant))
    decreases |users|
  {
    if users == {} {
      calls := [];
      TotalIsUserless(rows, tenant);
    } else {
      var u :| u in users;
      if Available(rows, tenant, u) == 0 {
        calls := Drain(tenants, rows, tenant, users - {u});
      } else {
        var c := Revoke(tenant, u, Available(rows, tenant, u), None);
        RevokingAll(tenants, rows, tenant, u);
        CallKeepsSound(tenants, rows, c);
        UserlessSumStays(tenants, rows, [c], tenant);
        var after := After(tenants, rows, c);
        assert Run(tenants, rows, [c]) == after;
        var rest := Drain(tenants, after, tenant, users - {u});
        calls := [c] + rest;
        assert calls[1..] == rest;
      }
    }
  }

  ghost predicate TotalStaysCovered(tenants: set<string>, rows: seq<Entry>, tenant: string) {
    forall calls :: NoUserlessCall(calls, tenant) ==> Available(Run(tenants, rows, calls), tenant, None) >= 0
  }

  /** Whatever the tenant's users go on to do, the tenant's total stays non-negative if and only if its user-less rows
      do not add up to less than zero. */
  lemma TotalIsSafeIffUserlessRowsAre(tenants: set<string>, rows: seq<Entry>, tenant: string)
    requires Sound(rows) && tenant in tenants
    ensures Sum(rows, UserlessIn(tenant)) >= 0 <==> TotalStaysCovered(tenants, rows, tenant)
  {
    if Sum(rows, UserlessIn(tenant)) >= 0 {
      forall calls | NoUserlessCall(calls, tenant)
        ensures Available(Run(tenants, rows, calls), tenant, None) >= 0
      {
        UserlessSumStays(tenants, rows, calls, tenant);
        RunKeepsSound(tenants, rows, calls);
        TotalAboveUserless(Run(tenants, rows, calls), tenant);
      }
    } else {
      forall u | Real(u) && u !in Owners(rows, tenant) ensures Available(rows, tenant, u) == 0 {
        StrangersHoldNothing(rows, tenant, u);
      }
      var calls := Drain(tenants, rows, tenant, Owners(rows, tenant));
      assert NoUserlessCall(calls, tenant);
    }
  }

  /** What one call does to that: it keeps the user-less rows from adding up to less than zero exactly when it writes no
      user-less debit beyond their sum. */
  lemma CallKeepsTotalSafeIff(tenants: set<string>, rows: seq<Entry>, c: Call)
    requires Sound(rows) && c.tenant in tenants && TotalStaysCovered(tenants, rows, c.tenant)
    ensures TotalStaysCovered(tenants, After(tenants, rows, c), c.tenant)
            <==> (Writes(tenants, rows, c) && !Real(c.Scope())
                  ==> Sum(rows, UserlessIn(c.tenant)) + RowOf(c).availableDelta >= 0)
  {
    CallKeepsSound(tenants, rows, c);
    SumAppend(rows, RowOf(c), UserlessIn(c.tenant));
    TotalIsSafeIffUserlessRowsAre(tenants, rows, c.tenant);
    TotalIsSafeIffUserlessRowsAre(tenants, After(tenants, rows, c), c.tenant);
  }
}
