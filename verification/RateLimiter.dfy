/** The per-IP fixed-window limiter of the server and the sweeper that trims its table.
    The global limiter allows 200 requests a minute, the scan limiter 30; only the global table is swept. */
module RateLimiter {

  const WINDOW: nat := 60_000
  const IP_RATE_LIMIT_MAX: nat := 200
  const SCAN_RATE_LIMIT_MAX: nat := 30

  datatype Entry = Entry(count: nat, resetAt: int)

  type Table = map<string, Entry>

  datatype Decision = Next | TooMany(retryAfterMs: int)

  datatype Event = Request(ip: string, now: int) | Sweep(now: int)

  // ----- the specification on tables -----

  function Opens(table: Table, ip: string, now: int): bool {
    ip !in table || now > table[ip].resetAt
  }

  function Decide(max: nat, table: Table, ip: string, now: int): Decision {
    if Opens(table, ip, now) then Next
    else if table[ip].count >= max then TooMany(table[ip].resetAt - now)
    else Next
  }

  function AfterRequest(max: nat, table: Table, ip: string, now: int): Table {
    if Opens(table, ip, now) then table[ip := Entry(1, now + WINDOW)]
    else if table[ip].count >= max then table
    else table[ip := table[ip].(count := table[ip].count + 1)]
  }

  function Swept(table: Table, now: int): Table {
    map ip | ip in table && !(now > table[ip].resetAt) :: table[ip]
  }

  function After(max: nat, table: Table, e: Event): Table {
    match e
    case Request(ip, now) => AfterRequest(max, table, ip, now)
    case Sweep(now) => Swept(table, now)
  }

  // ----- the limiter itself -----

  class Limiter {
    const max: nat
    var table: Table

    constructor (max: nat)
      ensures this.max == max && table == map[]
    {
      this.max := max;
      table := map[];
    }

    method Handle(ip: string, now: int) returns (d: Decision)
      modifies this
      ensures d == Decide(max, old(table), ip, now)
      ensures table == AfterRequest(max, old(table), ip, now)
    {
      if ip !in table || now > table[ip].resetAt {
        table := table[ip := Entry(1, now + 60_000)];
        return Next;
      }
      var entry := table[ip];
      if entry.count >= max {
        return TooMany(entry.resetAt - now);
      }
      table := table[ip := Entry(entry.count + 1, entry.resetAt)];
      return Next;
    }

    /** The interval callback: deletes the expired entries one by one. */
    method CleanUp(now: int)
      modifies this
      ensures table == Swept(old(table), now)
    {
      var todo := table.Keys;
      while todo != {}
        invariant todo <= old(table).Keys
        invariant table == map ip | ip in old(table) && (ip in todo || !(now > old(table)[ip].resetAt)) ::
                  old(table)[ip]
        decreases todo
      {
        var ip :| ip in todo;
        if now > table[ip].resetAt {
          table := table - {ip};
        }
        todo := todo - {ip};
      }
    }
  }

  // ----- runs -----

  predicate ClockRuns(start: int, events: seq<Event>)
    decreases |events|
  {
    events == [] || (start <= events[0].now && ClockRuns(events[0].now, events[1..]))
  }

  function WithoutSweeps(events: seq<Event>): seq<Event> {
    if events == [] then []
    else (if events[0].Sweep? then [] else [events[0]]) + WithoutSweeps(events[1..])
  }

  function Decisions(max: nat, table: Table, events: seq<Event>): seq<Decision>
    decreases |events|
  {
    if events == [] then []
    else
      (if events[0].Request? then [Decide(max, table, events[0].ip, events[0].now)] else [])
      + Decisions(max, After(max, table, events[0]), events[1..])
  }

  // ----- sweeping is invisible -----

  /** The swept table agrees with the unswept one, up to entries that have expired by the clock. */
  predicate SameUpToExpired(swept: Table, full: Table, clock: int) {
    && (forall ip <- swept :: ip in full && full[ip] == swept[ip])
    && (forall ip <- full :: ip !in swept ==> clock > full[ip].resetAt)
  }

  lemma EventKeepsAgreement(max: nat, swept: Table, full: Table, clock: int, e: Event)
    requires SameUpToExpired(swept, full, clock) && clock <= e.now
    ensures SameUpToExpired(After(max, swept, e), if e.Sweep? then full else After(max, full, e), e.now)
    ensures e.Request? ==> Decide(max, swept, e.ip, e.now) == Decide(max, full, e.ip, e.now)
  {
  }

  lemma {:induction false} SweepsChangeNoDecisionFrom(max: nat, swept: Table, full: Table, clock: int,
                                                      events: seq<Event>)
    requires SameUpToExpired(swept, full, clock) && ClockRuns(clock, events)
    ensures Decisions(max, swept, events) == Decisions(max, full, WithoutSweeps(events))
    decreases |events|
  {
    if events == [] {
    } else {
      var e := events[0];
      EventKeepsAgreement(max, swept, full, clock, e);
      var full' := if e.Sweep? then full else After(max, full, e);
      SweepsChangeNoDecisionFrom(max, After(max, swept, e), full', e.now, events[1..]);
      if e.Request? {
        assert WithoutSweeps(events)[1..] == WithoutSweeps(events[1..]);
      } else {
        assert WithoutSweeps(events) == WithoutSweeps(events[1..]);
      }
    }
  }

  /** With a clock that never runs backwards, a limiter swept at arbitrary times decides as one that is never swept. */
  lemma SweepsChangeNoDecision(max: nat, start: int, events: seq<Event>)
    requires ClockRuns(start, events)
    ensures Decisions(max, map[], events) == Decisions(max, map[], WithoutSweeps(events))
  {
    SweepsChangeNoDecisionFrom(max, map[], map[], start, events);
  }

  // ----- the sharp bound -----

  /** Requests of one ip accepted at times in [a, a + WINDOW]. */
  function AcceptedWithin(max: nat, table: Table, events: seq<Event>, ip: string, a: int): nat
    decreases |events|
  {
    if events == [] then 0
    else
      var e := events[0];
      (if e.Request? && e.ip == ip && a <= e.now <= a + WINDOW && Decide(max, table, ip, e.now).Next? then 1 else 0)
      + AcceptedWithin(max, After(max, table, e), events[1..], ip, a)
  }

  /** How many requests can still be accepted in [a, a + WINDOW] once n have been, given the ip's entry. */
  predicate Budget(max: nat, table: Table, ip: string, a: int, clock: int, n: int) {
    && (n > 0 ==> a <= clock)
    && (ip !in table ==> n == 0)
    && (ip in table ==>
          var e := table[ip];
          var since := e.resetAt - WINDOW;
          && 1 <= e.count <= max
          && since <= clock
          && (since < a ==> n <= e.count - 1)
          && (a <= since <= a + WINDOW ==> n <= max - 1 + e.count)
          && (since > a + WINDOW ==> n <= 2 * max - 1))
  }

  lemma {:induction false} BudgetBounds(max: nat, table: Table, events: seq<Event>, ip: string, a: int, clock: int,
                                        n: nat)
    requires max >= 1 && Budget(max, table, ip, a, clock, n) && ClockRuns(clock, events)
    requires forall e :: e in events ==> e.Request?
    ensures n + AcceptedWithin(max, table, events, ip, a) <= 2 * max - 1
    decreases |events|
  {
    if events == [] {
    } else {
      var e := events[0];
      var one := if e.ip == ip && a <= e.now <= a + WINDOW && Decide(max, table, ip, e.now).Next? then 1 else 0;
      assert Budget(max, After(max, table, e), ip, a, e.now, n + one);
      BudgetBounds(max, After(max, table, e), events[1..], ip, a, e.now, n + one);
    }
  }

  lemma {:induction false} SweepsChangeNoAcceptance(max: nat, swept: Table, full: Table, clock: int, events: seq<Event>,
                                                    ip: string, a: int)
    requires SameUpToExpired(swept, full, clock) && ClockRuns(clock, events)
    ensures AcceptedWithin(max, swept, events, ip, a) == AcceptedWithin(max, full, WithoutSweeps(events), ip, a)
    ensures ClockRuns(clock, WithoutSweeps(events))
    ensures forall e :: e in WithoutSweeps(events) ==> e.Request?
    decreases |events|
  {
    if events == [] {
    } else {
      var e := events[0];
      var rest := WithoutSweeps(events[1..]);
      EventKeepsAgreement(max, swept, full, clock, e);
      SweepsChangeNoAcceptance(max, After(max, swept, e), if e.Sweep? then full else After(max, full, e), e.now,
        events[1..], ip, a);
      if e.Request? {
        assert WithoutSweeps(events) == [e] + rest && ([e] + rest)[1..] == rest;
      } else {
        assert WithoutSweeps(events) == rest;
      }
    }
  }

  /** At most 2 * max - 1 requests of an ip are accepted in any closed interval of one window's length, sweeps or
      not. */
  lemma AtMostTwiceMaxMinusOne(max: nat, start: int, events: seq<Event>, ip: string, a: int)
    requires max >= 1 && ClockRuns(start, events)
    ensures AcceptedWithin(max, map[], events, ip, a) <= 2 * max - 1
  {
    SweepsChangeNoAcceptance(max, map[], map[], start, events, ip, a);
    BudgetBounds(max, map[], WithoutSweeps(events), ip, a, start, 0);
  }

  /** 399 requests of one ip in a closed minute on the global limiter, 59 on the scan limiter. */
  lemma LimitsPerMinute(start: int, events: seq<Event>, ip: string, a: int)
    requires ClockRuns(start, events)
    ensures AcceptedWithin(IP_RATE_LIMIT_MAX, map[], events, ip, a) <= 399
    ensures AcceptedWithin(SCAN_RATE_LIMIT_MAX, map[], events, ip, a) <= 59
  {
    AtMostTwiceMaxMinusOne(IP_RATE_LIMIT_MAX, start, events, ip, a);
    AtMostTwiceMaxMinusOne(SCAN_RATE_LIMIT_MAX, start, events, ip, a);
  }

  // ----- the bound is reached -----

  function Repeat(e: Event, n: nat): (r: seq<Event>)
    ensures |r| == n && forall i :: 0 <= i < n ==> r[i] == e
  {
    seq(n, _ => e)
  }

  /** A burst at one instant: a new window lets max requests through, a running one what is left of it. */
  lemma {:induction false} Burst(max: nat, table: Table, ip: string, a: int, now: int, n: nat, rest: seq<Event>)
    requires a <= now <= a + WINDOW && ip in table && now <= table[ip].resetAt && table[ip].count + n <= max
    ensures AcceptedWithin(max, table, Repeat(Request(ip, now), n) + rest, ip, a)
            == n + AcceptedWithin(max, table[ip := Entry(table[ip].count + n, table[ip].resetAt)], rest, ip, a)
    decreases n
  {
    var events := Repeat(Request(ip, now), n) + rest;
    if n == 0 {
      assert events == rest;
      assert table[ip := Entry(table[ip].count, table[ip].resetAt)] == table;
    } else {
      assert events[1..] == Repeat(Request(ip, now), n - 1) + rest;
      var next := AfterRequest(max, table, ip, now);
      Burst(max, next, ip, a, now, n - 1, rest);
      assert next[ip := Entry(next[ip].count + (n - 1), next[ip].resetAt)]
          == table[ip := Entry(table[ip].count + n, table[ip].resetAt)];
    }
  }

  /** One request, then max - 1 when its window ends, then max a millisecond later: 2 * max - 1 accepted in one closed
      interval. */
  function WorstRun(max: nat, ip: string): seq<Event>
    requires max >= 1
  {
    [Request(ip, 0)] + (Repeat(Request(ip, WINDOW), max - 1)
      + ([Request(ip, WINDOW + 1)] + (Repeat(Request(ip, WINDOW + 1), max - 1) + [])))
  }

  lemma {:induction false} RepeatedClockRuns(start: int, e: Event, n: nat, rest: seq<Event>)
    requires start <= e.now && ClockRuns(e.now, rest)
    ensures ClockRuns(start, Repeat(e, n) + rest)
    decreases n
  {
    if n == 0 {
      assert Repeat(e, n) + rest == rest;
      if rest != [] {
        assert ClockRuns(start, rest);
      }
    } else {
      assert (Repeat(e, n) + rest)[1..] == Repeat(e, n - 1) + rest;
      RepeatedClockRuns(e.now, e, n - 1, rest);
    }
  }

  /** A whole window at one instant. */
  lemma WindowBurst(max: nat, table: Table, ip: string, a: int, now: int, rest: seq<Event>)
    requires max >= 1 && a <= now <= a + WINDOW && Opens(table, ip, now)
    ensures AcceptedWithin(max, table, [Request(ip, now)] + (Repeat(Request(ip, now), max - 1) + rest), ip, a)
            == max + AcceptedWithin(max, table[ip := Entry(max, now + WINDOW)], rest, ip, a)
  {
    var burst := Repeat(Request(ip, now), max - 1) + rest;
    assert ([Request(ip, now)] + burst)[1..] == burst;
    var t := AfterRequest(max, table, ip, now);
    Burst(max, t, ip, a, now, max - 1, rest);
    assert t[ip := Entry(t[ip].count + (max - 1), t[ip].resetAt)] == table[ip := Entry(max, now + WINDOW)];
  }

  lemma WorstRunClock(max: nat, ip: string)
    requires max >= 1
    ensures ClockRuns(0, WorstRun(max, ip))
  {
    var late := Repeat(Request(ip, WINDOW + 1), max - 1) + [];
    var reopened := [Request(ip, WINDOW + 1)] + late;
    assert reopened[1..] == late;
    RepeatedClockRuns(WINDOW + 1, Request(ip, WINDOW + 1), max - 1, []);
    RepeatedClockRuns(0, Request(ip, WINDOW), max - 1, reopened);
    assert WorstRun(max, ip)[1..] == Repeat(Request(ip, WINDOW), max - 1) + reopened;
  }

  /** The bound is sharp: 399 requests of one ip do get through the global limiter within one closed minute. */
  lemma BoundIsReached(max: nat, ip: string)
    requires max >= 1
    ensures ClockRuns(0, WorstRun(max, ip))
    ensures AcceptedWithin(max, map[], WorstRun(max, ip), ip, 1) == 2 * max - 1
  {
    WorstRunClock(max, ip);
    var reopened := [Request(ip, WINDOW + 1)] + (Repeat(Request(ip, WINDOW + 1), max - 1) + []);
    var tail := Repeat(Request(ip, WINDOW), max - 1) + reopened;
    assert WorstRun(max, ip)[1..] == tail;
    var t0 := AfterRequest(max, map[], ip, 0);
    Burst(max, t0, ip, 1, WINDOW, max - 1, reopened);
    WindowBurst(max, t0[ip := Entry(max, WINDOW)], ip, 1, WINDOW + 1, []);
  }

  // ----- the Retry-After header -----

  function CeilSeconds(ms: nat): nat {
    (ms + 999) / 1000
  }

  /** A client that waits exactly the advertised seconds is let in if and only if the remaining time was not a whole
      number of seconds: the window is still closed at the very instant it resets. */
  lemma RetryAfterWaitSufficesIff(max: nat, table: Table, ip: string, now: int)
    requires Decide(max, table, ip, now).TooMany?
    ensures var wait := Decide(max, table, ip, now).retryAfterMs;
            wait >= 0 &&
            (Decide(max, table, ip, now + 1000 * CeilSeconds(wait)).Next? <==> wait % 1000 != 0)
  {
  }
}
