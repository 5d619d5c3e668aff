/** What the QTAG ledger lets a scope spend: never more than it was funded with, and exactly that less the orders that
    still hold or have used a tag. Every result is about runs of calls with interrupted confirms; `CallsAreMoves` says
    that plain runs are among them. */
module QTagBalances {
  import opened Common
  import opened LedgerTable
  import opened QTagOrders
  import opened QTagProofs
  import opened QTagInterrupted

  // ----- plain runs among the moves -----

  function Moves(calls: seq<Call>): seq<Move> {
    seq(|calls|, i requires 0 <= i < |calls| => Do(calls[i]))
  }

  lemma {:induction false} CallsAreMoves(s: State, calls: seq<Call>)
    ensures RunOf(s, Moves(calls)) == Run(s, calls)
  {
    if calls == [] {
    } else {
      CallsAreMoves(s, calls[..|calls| - 1]);
      assert Moves(calls)[..|calls| - 1] == Moves(calls[..|calls| - 1]);
    }
  }

  /** An orderly run of calls is a permitted run of moves. */
  lemma {:induction false} OrderlyRunsArePermitted(tenants: set<string>, assets: map<string, Asset>, calls: seq<Call>)
    requires OrderlyRun(Empty(tenants, assets), calls)
    ensures PermittedRun(Empty(tenants, assets), Moves(calls))
  {
    if calls == [] {
    } else {
      var before, c := calls[..|calls| - 1], calls[|calls| - 1];
      var s := Run(Empty(tenants, assets), before);
      OrderlyRunsArePermitted(tenants, assets, before);
      CallsAreMoves(Empty(tenants, assets), before);
      RunKeepsInv(tenants, assets, before);
      assert Moves(calls)[..|calls| - 1] == Moves(before);
      if c.Release? && c.orderId in s.orders {
        assert OrderMatches(s.tenants, s.rows, c.orderId, s.orders[c.orderId]);
      }
    }
  }

  // ----- no real user is ever overdrawn -----

  ghost predicate NobodyOverdrawn(rows: seq<Entry>) {
    forall t, u :: Real(u) ==> Available(rows, t, u) >= 0 && Reserved(rows, t, u) >= 0
  }

  lemma RowOverdrawsNobody(rows: seq<Entry>, e: Entry)
    requires NobodyOverdrawn(rows)
    requires Real(e.userId) ==>
               && Available(rows, e.tenantId, e.userId) + e.availableDelta >= 0
               && Reserved(rows, e.tenantId, e.userId) + e.reservedDelta >= 0
    ensures NobodyOverdrawn(rows + [e])
  {
    forall t, u | Real(u) ensures Available(rows + [e], t, u) >= 0 && Reserved(rows + [e], t, u) >= 0 {
      SumAppend(rows, e, AvailableIn(t, u));
      SumAppend(rows, e, ReservedIn(t, u));
      if InScope(e, t, u) {
        assert e.tenantId == t && e.userId == u;
      }
      assert Available(rows, t, u) >= 0 && Reserved(rows, t, u) >= 0;
    }
  }

  lemma FundOverdrawsNobody(s: State, c: Call)
    requires c.Fund? && NobodyOverdrawn(s.rows)
    ensures NobodyOverdrawn(DoFund(s, c).state.rows)
  {
    var e := Entry(c.tenant, OrUndefined(c.user), if c.purchased then PURCHASED else GRANTED, c.quantity, c.quantity, 0,
                   c.key, None);
    if DoFund(s, c).state.rows != s.rows {
      RowOverdrawsNobody(s.rows, e);
    }
  }

  lemma ReserveOverdrawsNobody(s: State, c: Call)
    requires c.Reserve? && NobodyOverdrawn(s.rows)
    ensures NobodyOverdrawn(DoReserve(s, c).state.rows)
  {
    if DoReserve(s, c).state.rows != s.rows {
      var key := OrDefault(c.key, ReserveKey(c.tenant, c.assetId));
      RowOverdrawsNobody(s.rows, ReserveRow(Order(c.tenant, OrUndefined(c.user), c.assetId, REQUESTED, 0), c.orderId,
        key));
    }
  }

  lemma ReleaseOverdrawsNobody(s: State, c: Call)
    requires c.Release? && NobodyOverdrawn(s.rows)
    ensures NobodyOverdrawn(DoRelease(s, c).state.rows)
  {
    if DoRelease(s, c).state.rows != s.rows {
      var o := s.orders[c.orderId];
      var e := ReleaseRow(o, c.orderId).(idempotencyKey := Some(OrDefault(c.key, ReleaseKey(c.orderId))));
      RowOverdrawsNobody(s.rows, e);
    }
  }

  lemma ConsumeOverdrawsNobody(s: State, tenant: string, orderId: string, user: Option<string>)
    requires NobodyOverdrawn(s.rows)
    ensures NobodyOverdrawn(ConsumeReservation(s, tenant, orderId, user).state.rows)
  {
    var e := Entry(tenant, OrUndefined(user), CONSUMED, 1, 0, -1, Some(ConsumeKey(orderId)), Some(orderId));
    if ConsumeReservation(s, tenant, orderId, user).state.rows != s.rows {
      RowOverdrawsNobody(s.rows, e);
    }
  }

  lemma WriteOverdrawsNobody(s: State, c: Call, n: nat)
    requires c.Confirm? && c.sessionId in s.sessions && n >= 1 && NobodyOverdrawn(s.rows)
    ensures NobodyOverdrawn(Write(s, c, n).state.rows)
  {
    var orderId := s.sessions[c.sessionId].orderId;
    if n == 4 && c.success && orderId.Some? && orderId.value in s.orders {
      ConsumeOverdrawsNobody(s, c.tenant, orderId.value, s.orders[orderId.value].userId);
    } else {
      assert Write(s, c, n).state.rows == s.rows;
    }
  }

  lemma {:induction false} ConfirmOverdrawsNobody(s: State, c: Call, n: nat)
    requires c.Confirm? && NobodyOverdrawn(s.rows)
    ensures NobodyOverdrawn(UpTo(s, c, n).state.rows)
  {
    if n == 0 {
    } else {
      ConfirmOverdrawsNobody(s, c, n - 1);
      if UpTo(s, c, n - 1).error.None? {
        WriteOverdrawsNobody(UpTo(s, c, n - 1).state, c, n);
      }
    }
  }

  lemma MoveOverdrawsNobody(s: State, m: Move)
    requires NobodyOverdrawn(s.rows)
    ensures NobodyOverdrawn(After(s, m).rows)
  {
    var c := m.call;
    if c.Confirm? {
      ConfirmOverdrawsNobody(s, c, if m.Stop? then Least(m.writes, 5) else 5);
    } else if m.Do? {
      match c
      case Fund(_, _, _, _, _) => FundOverdrawsNobody(s, c);
      case Reserve(_, _, _, _, _) => ReserveOverdrawsNobody(s, c);
      case Start(_, _, _, _, _, _) => assert DoStart(s, c).state.rows == s.rows;
      case Release(_, _, _) => ReleaseOverdrawsNobody(s, c);
    }
  }

  /** Over every run, orderly or not: no user has reserved more tags than were available, nor consumed or released more
      than were reserved. */
  lemma {:induction false} BalancesNeverNegative(tenants: set<string>, assets: map<string, Asset>, moves: seq<Move>)
    ensures NobodyOverdrawn(RunOf(Empty(tenants, assets), moves).rows)
  {
    if moves == [] {
    } else {
      BalancesNeverNegative(tenants, assets, moves[..|moves| - 1]);
      MoveOverdrawsNobody(RunOf(Empty(tenants, assets), moves[..|moves| - 1]), moves[|moves| - 1]);
    }
  }

  // ----- what is available is what was funded, less the live orders -----

  function Funded(rows: seq<Entry>, t: string, u: Option<string>): int {
    Amount(rows, t, u, PURCHASED) + Amount(rows, t, u, GRANTED)
  }

  /** The orders of a scope that are not cancelled. */
  function NotCancelled(orders: map<string, Order>, t: string, u: Option<string>): set<string> {
    set o | o in orders && OrderInScope(orders[o], t, u) && !orders[o].status.CANCELLED?
  }

  ghost predicate Balanced(rows: seq<Entry>, orders: map<string, Order>) {
    forall t, u :: Available(rows, t, u) == Funded(rows, t, u) - |NotCancelled(orders, t, u)|
  }

  /** Whose an order is, and whether it is cancelled, is all that counts here. */
  predicate SameClaims(orders: map<string, Order>, orders': map<string, Order>) {
    && orders'.Keys == orders.Keys
    && forall id <- orders ::
         && orders'[id].tenantId == orders[id].tenantId && orders'[id].userId == orders[id].userId
         && (orders'[id].status.CANCELLED? <==> orders[id].status.CANCELLED?)
  }

  lemma SameClaimsBalance(rows: seq<Entry>, orders: map<string, Order>, orders': map<string, Order>)
    requires Balanced(rows, orders) && SameClaims(orders, orders')
    ensures Balanced(rows, orders')
  {
    forall t, u ensures NotCancelled(orders', t, u) == NotCancelled(orders, t, u) {
    }
  }

  lemma FundsAfter(rows: seq<Entry>, e: Entry, t: string, u: Option<string>)
    ensures Available(rows + [e], t, u) == Available(rows, t, u) + (if InScope(e, t, u) then e.availableDelta else 0)
    ensures Funded(rows + [e], t, u)
            == Funded(rows, t, u)
               + if InScope(e, t, u) && (e.entryType == PURCHASED || e.entryType == GRANTED) then e.amount else 0
  {
    SumAppend(rows, e, AvailableIn(t, u));
    SumAppend(rows, e, AmountIn(t, u, PURCHASED));
    SumAppend(rows, e, AmountIn(t, u, GRANTED));
  }

  /** A funding row, or one that leaves the available tags alone. */
  lemma PlainRowBalances(rows: seq<Entry>, e: Entry, orders: map<string, Order>)
    requires Balanced(rows, orders)
    requires e.availableDelta == if e.entryType == PURCHASED || e.entryType == GRANTED then e.amount else 0
    ensures Balanced(rows + [e], orders)
  {
    forall t, u ensures Available(rows + [e], t, u) == Funded(rows + [e], t, u) - |NotCancelled(orders, t, u)| {
      FundsAfter(rows, e, t, u);
    }
  }

  lemma NewOrderClaims(orders: map<string, Order>, id: string, o: Order, t: string, u: Option<string>)
    requires id !in orders && !o.status.CANCELLED?
    ensures |NotCancelled(orders[id := o], t, u)| == |NotCancelled(orders, t, u)| + if OrderInScope(o, t, u) then 1
            else 0
  {
    var before, after := NotCancelled(orders, t, u), NotCancelled(orders[id := o], t, u);
    assert id !in before;
    forall x ensures x in after <==> x in before || (x == id && OrderInScope(o, t, u)) {
    }
    assert after == before + if OrderInScope(o, t, u) then {id} else {};
  }

  lemma CancelledOrderClaims(orders: map<string, Order>, id: string, t: string, u: Option<string>)
    requires id in orders && !orders[id].status.CANCELLED?
    ensures |NotCancelled(orders[id := orders[id].(status := CANCELLED)], t, u)|
            == |NotCancelled(orders, t, u)| - if OrderInScope(orders[id], t, u) then 1 else 0
  {
    var before := NotCancelled(orders, t, u);
    var after := NotCancelled(orders[id := orders[id].(status := CANCELLED)], t, u);
    if OrderInScope(orders[id], t, u) {
      assert id in before && after == before - {id};
    } else {
      assert after == before;
    }
  }

  lemma FundBalances(s: State, c: Call)
    requires c.Fund? && Balanced(s.rows, s.orders)
    ensures Balanced(DoFund(s, c).state.rows, DoFund(s, c).state.orders)
  {
    var e := Entry(c.tenant, OrUndefined(c.user), if c.purchased then PURCHASED else GRANTED, c.quantity, c.quantity, 0,
                   c.key, None);
    if DoFund(s, c).state.rows != s.rows {
      PlainRowBalances(s.rows, e, s.orders);
    }
  }

  lemma ReserveBalances(s: State, c: Call)
    requires c.Reserve? && c.orderId !in s.orders && Balanced(s.rows, s.orders)
    ensures Balanced(DoReserve(s, c).state.rows, DoReserve(s, c).state.orders)
  {
    var s' := DoReserve(s, c).state;
    if s' != s {
      var o, key := s'.orders[c.orderId], OrDefault(c.key, ReserveKey(c.tenant, c.assetId));
      assert s'.orders == s.orders[c.orderId := o] && s'.rows == s.rows + [ReserveRow(o, c.orderId, key)];
      forall t, u ensures Available(s'.rows, t, u) == Funded(s'.rows, t, u) - |NotCancelled(s'.orders, t, u)| {
        FundsAfter(s.rows, ReserveRow(o, c.orderId, key), t, u);
        NewOrderClaims(s.orders, c.orderId, o, t, u);
      }
    }
  }

  lemma ReleaseBalances(s: State, c: Call)
    requires c.Release? && Holds(s.tenants, s.rows, s.sessions, s.orders) && Permitted(s, c)
             && Balanced(s.rows, s.orders)
    ensures Balanced(DoRelease(s, c).state.rows, DoRelease(s, c).state.orders)
  {
    var s' := DoRelease(s, c).state;
    if s' != s {
      var id, o := c.orderId, s.orders[c.orderId];
      assert OrderMatches(s.tenants, s.rows, id, Effective(s.rows, s.orders)[id]);
      assert s'.orders == s.orders[id := o.(status := CANCELLED)] && s'.rows == s.rows + [ReleaseRow(o, id)];
      CancelledBalances(s.rows, s.orders, id);
    }
  }

  lemma CancelledBalances(rows: seq<Entry>, orders: map<string, Order>, id: string)
    requires Balanced(rows, orders) && id in orders && !orders[id].status.CANCELLED?
    requires orders[id].userId == OrUndefined(orders[id].userId)
    ensures Balanced(rows + [ReleaseRow(orders[id], id)], orders[id := orders[id].(status := CANCELLED)])
  {
    var e, orders' := ReleaseRow(orders[id], id), orders[id := orders[id].(status := CANCELLED)];
    forall t, u ensures Available(rows + [e], t, u) == Funded(rows + [e], t, u) - |NotCancelled(orders', t, u)| {
      FundsAfter(rows, e, t, u);
      CancelledOrderClaims(orders, id, t, u);
    }
  }

  lemma StartBalances(s: State, c: Call)
    requires c.Start? && Balanced(s.rows, s.orders)
    ensures Balanced(DoStart(s, c).state.rows, DoStart(s, c).state.orders)
  {
    SameClaimsBalance(s.rows, s.orders, DoStart(s, c).state.orders);
  }

  lemma ConsumeBalances(s: State, tenant: string, orderId: string, user: Option<string>)
    requires Balanced(s.rows, s.orders)
    ensures var s' := ConsumeReservation(s, tenant, orderId, user).state;
            Balanced(s'.rows, s.orders)
            && s'.orders == s.orders
    ensures ConsumeReservation(s, tenant, orderId, user).state.sessions == s.sessions
  {
    var e := Entry(tenant, OrUndefined(user), CONSUMED, 1, 0, -1, Some(ConsumeKey(orderId)), Some(orderId));
    if ConsumeReservation(s, tenant, orderId, user).state.rows != s.rows {
      PlainRowBalances(s.rows, e, s.orders);
    }
  }

  /** While its order is not cancelled a confirm cancels nothing and revives nothing. */
  lemma WriteBalances(s: State, c: Call, n: nat)
    requires c.Confirm? && c.sessionId in s.sessions && n >= 1 && Balanced(s.rows, s.orders) && LiveTarget(s, c)
    ensures var s' := Write(s, c, n).state; Balanced(s'.rows, s'.orders) && LiveTarget(s', c)
  {
    var s', orderId := Write(s, c, n).state, s.sessions[c.sessionId].orderId;
    if n == 4 && c.success && orderId.Some? && orderId.value in s.orders {
      ConsumeBalances(s, c.tenant, orderId.value, s.orders[orderId.value].userId);
    } else {
      assert s'.rows == s.rows && SameClaims(s.orders, s'.orders);
      SameClaimsBalance(s.rows, s.orders, s'.orders);
    }
  }

  /** The order the confirmed session is for, if there is one, is not cancelled. */
  predicate LiveTarget(s: State, c: Call) {
    c.Confirm? && c.sessionId in s.sessions ==>
      var orderId := s.sessions[c.sessionId].orderId;
      orderId.Some? && orderId.value in s.orders ==> !s.orders[orderId.value].status.CANCELLED?
  }

  lemma {:induction false} ConfirmBalances(s: State, c: Call, n: nat)
    requires c.Confirm? && Balanced(s.rows, s.orders) && LiveTarget(s, c)
    ensures var s' := UpTo(s, c, n).state; Balanced(s'.rows, s'.orders) && LiveTarget(s', c)
  {
    if n == 0 {
    } else {
      ConfirmBalances(s, c, n - 1);
      if UpTo(s, c, n - 1).error.None? {
        WriteBalances(UpTo(s, c, n - 1).state, c, n);
      }
    }
  }

  lemma PermittedConfirmIsLive(s: State, c: Call)
    requires c.Confirm? && SessionsMatchOrders(s.sessions, s.orders) && Permitted(s, c) && c.sessionId in s.sessions
    ensures LiveTarget(s, c)
  {
    var session := s.sessions[c.sessionId];
    if session.orderId.Some? && session.status.IN_PROGRESS? {
      assert OpenSessionOf(session, session.orderId.value);
    }
  }

  lemma MoveBalances(s: State, m: Move)
    requires Holds(s.tenants, s.rows, s.sessions, s.orders) && Permitted(s, m.call) && Balanced(s.rows, s.orders)
    ensures Balanced(After(s, m).rows, After(s, m).orders)
  {
    var c := m.call;
    if c.Confirm? {
      if c.sessionId in s.sessions {
        PermittedConfirmIsLive(s, c);
      }
      ConfirmBalances(s, c, if m.Stop? then Least(m.writes, 5) else 5);
    } else if m.Do? {
      match c
      case Fund(_, _, _, _, _) => FundBalances(s, c);
      case Reserve(_, _, _, _, _) => ReserveBalances(s, c);
      case Start(_, _, _, _, _, _) => StartBalances(s, c);
      case Release(_, _, _) => ReleaseBalances(s, c);
    }
  }

  /** Over every permitted run and in every scope: available is what was purchased and granted, less one for every order
      that is not cancelled. */
  lemma {:induction false} AvailableIsFundedLessOrders(tenants: set<string>, assets: map<string, Asset>,
                                                       moves: seq<Move>)
    requires PermittedRun(Empty(tenants, assets), moves)
    ensures var s := RunOf(Empty(tenants, assets), moves); Balanced(s.rows, s.orders)
  {
    if moves == [] {
      forall t, u ensures NotCancelled(map[], t, u) == {} {
      }
    } else {
      var before := moves[..|moves| - 1];
      AvailableIsFundedLessOrders(tenants, assets, before);
      RunKeepsHolds(tenants, assets, before);
      MoveBalances(RunOf(Empty(tenants, assets), before), moves[|moves| - 1]);
    }
  }

  // ----- what was funded is what the calls asked for -----

  /** What a funding call that wrote its row adds to a total. */
  function Asked(c: Call, purchased: bool, t: string, u: Option<string>): int {
    if c.Fund? && c.purchased == purchased && c.tenant == t && (Real(u) ==> c.user == u) then c.quantity else 0
  }

  function AskedOver(s: State, moves: seq<Move>, purchased: bool, t: string, u: Option<string>): int {
    if moves == [] then 0
    else
      var before, m := RunOf(s, moves[..|moves| - 1]), moves[|moves| - 1];
      AskedOver(s, moves[..|moves| - 1], purchased, t, u)
      + if After(before, m).rows != before.rows then Asked(m.call, purchased, t, u) else 0
  }

  lemma FundWrites(s: State, c: Call)
    requires c.Fund? && DoFund(s, c).state.rows != s.rows
    ensures DoFund(s, c).state.rows
            == s.rows + [Entry(c.tenant, OrUndefined(c.user), if c.purchased then PURCHASED else GRANTED, c.quantity,
                               c.quantity, 0, c.key, None)]
  {
  }

  lemma FundWritesWhatIsAsked(s: State, c: Call, purchased: bool, t: string, u: Option<string>)
    requires c.Fund? && DoFund(s, c).state.rows != s.rows
    ensures Amount(DoFund(s, c).state.rows, t, u, if purchased then PURCHASED else GRANTED)
            == Amount(s.rows, t, u, if purchased then PURCHASED else GRANTED) + Asked(c, purchased, t, u)
  {
    var e := Entry(c.tenant, OrUndefined(c.user), if c.purchased then PURCHASED else GRANTED, c.quantity, c.quantity, 0,
                   c.key, None);
    FundWrites(s, c);
    SumAppend(s.rows, e, AmountIn(t, u, if purchased then PURCHASED else GRANTED));
  }

  lemma OthersWrite(s: State, c: Call) returns (e: Entry)
    requires (c.Reserve? || c.Release?) && Step(s, c).state.rows != s.rows
    ensures Step(s, c).state.rows == s.rows + [e] && (e.entryType == RESERVED || e.entryType == RELEASED)
  {
    e := if c.Reserve? then DoReserve(s, c).state.rows[|s.rows|] else DoRelease(s, c).state.rows[|s.rows|];
  }

  /** Any other call leaves both totals alone. */
  lemma OthersFundNothing(s: State, m: Move, t: string, u: Option<string>, kind: EntryType)
    requires !m.call.Fund? && (kind == PURCHASED || kind == GRANTED)
    ensures Amount(After(s, m).rows, t, u, kind) == Amount(s.rows, t, u, kind)
  {
    var c := m.call;
    if c.Confirm? {
      ConfirmFundsNothing(s, c, if m.Stop? then Least(m.writes, 5) else 5, t, u, kind);
    } else if m.Do? {
      if c.Start? {
        assert DoStart(s, c).state.rows == s.rows;
      } else if Step(s, c).state.rows != s.rows {
        var e := OthersWrite(s, c);
        SumAppend(s.rows, e, AmountIn(t, u, kind));
      }
    }
  }

  lemma {:induction false} ConfirmFundsNothing(s: State, c: Call, n: nat, t: string, u: Option<string>, kind: EntryType)
    requires c.Confirm? && (kind == PURCHASED || kind == GRANTED)
    ensures Amount(UpTo(s, c, n).state.rows, t, u, kind) == Amount(s.rows, t, u, kind)
  {
    if n == 0 {
    } else {
      ConfirmFundsNothing(s, c, n - 1, t, u, kind);
      var p, after := UpTo(s, c, n - 1), UpTo(s, c, n).state;
      if p.error.None? && after.rows != p.state.rows {
        assert after.rows == p.state.rows + [after.rows[|p.state.rows|]]
            && after.rows[|p.state.rows|].entryType == CONSUMED;
        SumAppend(p.state.rows, after.rows[|p.state.rows|], AmountIn(t, u, kind));
      }
    }
  }

  /** Over every run: the purchased and the granted total of a scope are the sums of the quantities asked for there by
      the calls that wrote a row. */
  lemma {:induction false} FundedIsWhatWasAsked(tenants: set<string>, assets: map<string, Asset>, moves: seq<Move>,
                                                t: string, u: Option<string>)
    ensures var s := RunOf(Empty(tenants, assets), moves);
            && Amount(s.rows, t, u, PURCHASED) == AskedOver(Empty(tenants, assets), moves, true, t, u)
            && Amount(s.rows, t, u, GRANTED) == AskedOver(Empty(tenants, assets), moves, false, t, u)
  {
    if moves == [] {
    } else {
      FundedIsWhatWasAsked(tenants, assets, moves[..|moves| - 1], t, u);
      var s, m := RunOf(Empty(tenants, assets), moves[..|moves| - 1]), moves[|moves| - 1];
      if !m.call.Fund? {
        OthersFundNothing(s, m, t, u, PURCHASED);
        OthersFundNothing(s, m, t, u, GRANTED);
      } else if After(s, m).rows != s.rows {
        FundWritesWhatIsAsked(s, m.call, true, t, u);
        FundWritesWhatIsAsked(s, m.call, false, t, u);
      }
    }
  }
}
