/** The limiter against its history: each decision is a function of when the ip's earlier requests were let through. */
module RateWindows {
  import opened RateLimiter

  // ----- the reference: windows over the accepted times -----

  /** When the current window opened: each window takes in everything within a minute of its first request. */
  function WindowStart(times: seq<int>): (start: int)
    requires times != []
    ensures start in times
  {
    var last := times[|times| - 1];
    if |times| == 1 then last
    else
      var start := WindowStart(times[..|times| - 1]);
      if last > start + 60_000 then last else start
  }

  /** How many requests the current window has taken in. */
  function WindowCount(times: seq<int>): nat
    requires times != []
  {
    if |times| == 1 then 1
    else
      var before := times[..|times| - 1];
      if times[|times| - 1] > WindowStart(before) + 60_000 then 1 else WindowCount(before) + 1
  }

  // ----- runs -----

  function TableAfter(max: nat, events: seq<Event>): Table {
    if events == [] then map[] else After(max, TableAfter(max, events[..|events| - 1]), events[|events| - 1])
  }

  function Answer(max: nat, events: seq<Event>, ip: string, now: int): Decision {
    Decide(max, TableAfter(max, events), ip, now)
  }

  /** The times at which requests of an ip were let through. */
  function Accepted(max: nat, events: seq<Event>, ip: string): seq<int> {
    if events == [] then []
    else
      var before, e := events[..|events| - 1], events[|events| - 1];
      Accepted(max, before, ip)
      + if e.Request? && e.ip == ip && Answer(max, before, ip, e.now).Next? then [e.now] else []
  }

  predicate Ticks(events: seq<Event>) {
    forall i, j :: 0 <= i < j < |events| ==> events[i].now <= events[j].now
  }

  /** The clock has reached this time and not passed it. */
  predicate NotPast(events: seq<Event>, now: int) {
    forall i :: 0 <= i < |events| ==> events[i].now <= now
  }

  // ----- the table is the current window -----

  predicate Mirrors(table: Table, ip: string, times: seq<int>, now: int) {
    if times == [] then ip !in table
    else if ip in table then table[ip] == Entry(WindowCount(times), WindowStart(times) + 60_000)
    else now > WindowStart(times) + 60_000
  }

  lemma MirrorDecides(max: nat, table: Table, ip: string, times: seq<int>, before: int, now: int)
    requires Mirrors(table, ip, times, before) && before <= now
    ensures Decide(max, table, ip, now)
            == if times != [] && now <= WindowStart(times) + 60_000 && WindowCount(times) >= max
               then TooMany(WindowStart(times) + 60_000 - now) else Next
  {
  }

  lemma EventKeepsMirror(max: nat, table: Table, e: Event, ip: string, times: seq<int>, before: int)
    requires Mirrors(table, ip, times, before) && before <= e.now
    ensures var took := e.Request? && e.ip == ip && Decide(max, table, ip, e.now).Next?;
            Mirrors(After(max, table, e), ip, times + if took then [e.now] else [], e.now)
  {
    var took := e.Request? && e.ip == ip && Decide(max, table, ip, e.now).Next?;
    if took {
      assert (times + [e.now])[..|times|] == times;
    } else {
      assert times + [] == times;
    }
  }

  lemma {:induction false} TableMirrorsWindows(max: nat, events: seq<Event>, ip: string, now: int)
    requires Ticks(events) && NotPast(events, now)
    ensures Mirrors(TableAfter(max, events), ip, Accepted(max, events, ip), now)
  {
    if events == [] {
    } else {
      var before, e := events[..|events| - 1], events[|events| - 1];
      TableMirrorsWindows(max, before, ip, e.now);
      EventKeepsMirror(max, TableAfter(max, before), e, ip, Accepted(max, before, ip), e.now);
    }
  }

  /** Over every run with a clock that never runs backwards, sweeps or not: a request is refused if and only if the
      window of its ip that is still running has taken in max requests, and is told how long the window runs. */
  lemma DecisionIsTheWindows(max: nat, events: seq<Event>, ip: string, now: int)
    requires Ticks(events) && NotPast(events, now)
    ensures var times := Accepted(max, events, ip);
            Answer(max, events, ip, now)
            == if times != [] && now <= WindowStart(times) + 60_000 && WindowCount(times) >= max
               then TooMany(WindowStart(times) + 60_000 - now) else Next
  {
    TableMirrorsWindows(max, events, ip, now);
    MirrorDecides(max, TableAfter(max, events), ip, Accepted(max, events, ip), now, now);
  }

  // ----- what it takes to be refused -----

  /** How many of the times are at or after this one. */
  function Since(times: seq<int>, a: int): nat {
    if times == [] then 0 else Since(times[..|times| - 1], a) + if times[|times| - 1] >= a then 1 else 0
  }

  predicate Rising(times: seq<int>) {
    forall i, j :: 0 <= i < j < |times| ==> times[i] <= times[j]
  }

  lemma {:induction false} AcceptedRise(max: nat, events: seq<Event>, ip: string, now: int)
    requires Ticks(events) && NotPast(events, now)
    ensures var times := Accepted(max, events, ip); Rising(times) && forall i :: 0 <= i < |times| ==> times[i] <= now
  {
    if events == [] {
    } else {
      var before, e := events[..|events| - 1], events[|events| - 1];
      AcceptedRise(max, before, ip, e.now);
      var earlier := Accepted(max, before, ip);
      assert Rising(earlier + []) && Rising(earlier + [e.now]);
    }
  }

  lemma {:induction false} WindowIsRecent(times: seq<int>, a: int)
    requires times != [] && Rising(times) && a <= WindowStart(times)
    ensures WindowCount(times) <= Since(times, a)
  {
    var last, before := times[|times| - 1], times[..|times| - 1];
    assert last >= a by {
      var i :| 0 <= i < |times| && times[i] == WindowStart(times);
      assert times[i] <= last;
    }
    if |times| > 1 && last <= WindowStart(before) + 60_000 {
      WindowIsRecent(before, a);
    }
  }

  /** A request is refused only if max requests of its ip were let through in the last minute: an ip from which nothing
      was let through for a minute is let through. */
  lemma RefusedOnlyAfterMax(max: nat, events: seq<Event>, ip: string, now: int)
    requires Ticks(events) && NotPast(events, now)
    ensures Answer(max, events, ip, now).TooMany? ==> Since(Accepted(max, events, ip), now - 60_000) >= max
    ensures max >= 1 && Since(Accepted(max, events, ip), now - 60_000) == 0 ==> Answer(max, events, ip, now) == Next
  {
    DecisionIsTheWindows(max, events, ip, now);
    AcceptedRise(max, events, ip, now);
    if Answer(max, events, ip, now).TooMany? {
      WindowIsRecent(Accepted(max, events, ip), now - 60_000);
    }
  }

  // ----- a refused request leaves no trace -----

  predicate IsRefused(max: nat, table: Table, e: Event) {
    e.Request? && Decide(max, table, e.ip, e.now).TooMany?
  }

  /** Marks, in a run from this table, only requests that the limiter refuses. */
  predicate DropsOnlyRefused(max: nat, table: Table, events: seq<Event>, drop: seq<bool>)
    requires |drop| == |events|
    decreases |events|
  {
    events == [] || ((drop[0] ==> IsRefused(max, table, events[0]))
                     && DropsOnlyRefused(max, After(max, table, events[0]), events[1..], drop[1..]))
  }

  function Kept(events: seq<Event>, drop: seq<bool>): seq<Event>
    requires |drop| == |events|
  {
    if events == [] then [] else (if drop[0] then [] else [events[0]]) + Kept(events[1..], drop[1..])
  }

  /** The decisions of a run, without those on the marked requests. */
  function KeptDecisions(max: nat, table: Table, events: seq<Event>, drop: seq<bool>): seq<Decision>
    requires |drop| == |events|
    decreases |events|
  {
    if events == [] then []
    else
      var e := events[0];
      (if e.Request? && !drop[0] then [Decide(max, table, e.ip, e.now)] else [])
      + KeptDecisions(max, After(max, table, e), events[1..], drop[1..])
  }

  /** Leaving any refused requests out of a run, at any times and from any table, changes no other decision. */
  lemma {:induction false} RefusalsLeaveNoTrace(max: nat, table: Table, events: seq<Event>, drop: seq<bool>)
    requires |drop| == |events| && DropsOnlyRefused(max, table, events, drop)
    ensures Decisions(max, table, Kept(events, drop)) == KeptDecisions(max, table, events, drop)
    decreases |events|
  {
    if events == [] {
    } else {
      var e, rest := events[0], Kept(events[1..], drop[1..]);
      RefusalsLeaveNoTrace(max, After(max, table, e), events[1..], drop[1..]);
      if drop[0] {
        assert Kept(events, drop) == rest && After(max, table, e) == table;
      } else {
        assert Kept(events, drop) == [e] + rest && ([e] + rest)[1..] == rest;
      }
    }
  }

  /** A sweep removes exactly the entries whose window is over, and changes no other. */
  lemma SweepRemovesTheExpired(max: nat, table: Table, now: int, ip: string)
    ensures var swept := After(max, table, Sweep(now));
            && (ip in swept <==> ip in table && table[ip].resetAt >= now)
            && (ip in swept ==> swept[ip] == table[ip])
  {
  }
}
