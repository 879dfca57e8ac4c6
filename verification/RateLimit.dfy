/** The per-tenant token bucket, with exact arithmetic: its constant-time bookkeeping decides exactly
    as a specification that looks at every window of its history. */
module RateLimit {

  const NANOS_PER_MILLI := 1_000_000

  /** One call of Take: the bucket's accumulated millisecond clock, the clock reading in nanoseconds,
      and the decision. */
  datatype Call = Call(at: int, now: int, granted: bool)

  function Grants(calls: seq<Call>): nat {
    if calls == [] then 0 else (if calls[0].granted then 1 else 0) + Grants(calls[1..])
  }

  /** Refill instant 0 is the bucket's creation, instant i > 0 is call i - 1. */
  function InstantAt(calls: seq<Call>, i: nat): int
    requires i <= |calls|
  {
    if i == 0 then 0 else calls[i - 1].at
  }

  /** The calls at or after refill instant i. */
  function Since(calls: seq<Call>, i: nat): seq<Call>
    requires i <= |calls|
  {
    if i == 0 then calls else calls[i - 1..]
  }

  /** The tokens that come in over some milliseconds. */
  function Inflow(rate: real, millis: int): real {
    rate * millis as real
  }

  lemma InflowAdds(rate: real, a: int, b: int)
    ensures Inflow(rate, a + b) == Inflow(rate, a) + Inflow(rate, b)
  {
    assert (a + b) as real == a as real + b as real;
  }

  lemma InflowGrows(rate: real, a: int, b: int)
    requires rate >= 0.0 && a <= b
    ensures Inflow(rate, a) <= Inflow(rate, b)
  {
    assert a as real <= b as real;
  }

  /** What the window from refill instant i to time t leaves to grant. */
  function Slack(max: int, rate: real, calls: seq<Call>, t: int, i: nat): real
    requires i <= |calls|
  {
    max as real + Inflow(rate, t - InstantAt(calls, i)) - Grants(Since(calls, i)) as real
  }

  /** The specification: one more grant at time t fits every window that ends at t, the empty one
      included. */
  predicate WindowsAllow(max: int, rate: real, calls: seq<Call>, t: int) {
    1 <= max && forall i: nat :: i <= |calls| ==> Slack(max, rate, calls, t, i) >= 1.0
  }

  /** The clock reading at refill instant i of a bucket created at start. */
  function NowAt(calls: seq<Call>, start: int, i: nat): int
    requires i <= |calls|
  {
    if i == 0 then start else calls[i - 1].now
  }

  ghost predicate RightlyDecided(max: int, rate: real, calls: seq<Call>) {
    forall k: nat :: k < |calls| ==> (calls[k].granted <==> WindowsAllow(max, rate, calls[..k], calls[k].at))
  }

  /** Call k reads the clock no earlier than the refill before it and adds the whole milliseconds since. */
  predicate Ticked(calls: seq<Call>, start: int, k: nat)
    requires k < |calls|
  {
    NowAt(calls, start, k) <= calls[k].now
    && calls[k].at == InstantAt(calls, k) + (calls[k].now - NowAt(calls, start, k)) / NANOS_PER_MILLI
  }

  ghost predicate Clocked(calls: seq<Call>, start: int) {
    forall k: nat :: k < |calls| ==> Ticked(calls, start, k)
  }

  /** A history of a bucket created at start in which every decision is the specification's. */
  ghost predicate Faithful(max: int, rate: real, calls: seq<Call>, start: int) {
    RightlyDecided(max, rate, calls) && Clocked(calls, start)
  }

  /** The millisecond clock never gets ahead of the real one. */
  lemma {:induction false} ClocksOrdered(calls: seq<Call>, start: int, i: nat, j: nat)
    requires Clocked(calls, start) && i <= j <= |calls|
    ensures InstantAt(calls, i) <= InstantAt(calls, j)
    ensures NANOS_PER_MILLI * (InstantAt(calls, j) - InstantAt(calls, i))
            <= NowAt(calls, start, j) - NowAt(calls, start, i)
    decreases j
  {
    if i == j {
    } else {
      ClocksOrdered(calls, start, i, j - 1);
      assert Ticked(calls, start, j - 1);
    }
  }

  // ----- The level of the bucket is the least slack -----

  function Min(a: real, b: real): real {
    if a < b then a else b
  }

  function LastAt(calls: seq<Call>): int {
    InstantAt(calls, |calls|)
  }

  /** The bucket's level after a history: refill and cap at each call, and spend a token on a grant. */
  function Level(max: int, rate: real, calls: seq<Call>): real
    decreases |calls|, 0
  {
    if calls == [] then max as real
    else
      var before, last := calls[..|calls| - 1], calls[|calls| - 1];
      Refilled(max, rate, before, last.at) - (if last.granted then 1.0 else 0.0)
  }

  function Refilled(max: int, rate: real, calls: seq<Call>, t: int): real
    decreases |calls|, 1
  {
    Min(max as real, Level(max, rate, calls) + Inflow(rate, t - LastAt(calls)))
  }

  lemma {:induction false} GrantsAppend(calls: seq<Call>, c: Call)
    ensures Grants(calls + [c]) == Grants(calls) + (if c.granted then 1 else 0)
  {
    if calls == [] {
      assert [] + [c] == [c];
    } else {
      assert (calls + [c])[1..] == calls[1..] + [c];
      GrantsAppend(calls[1..], c);
    }
  }

  lemma SlackAppend(max: int, rate: real, calls: seq<Call>, c: Call, t: int, i: nat)
    requires i <= |calls|
    ensures Slack(max, rate, calls + [c], t, i)
            == Slack(max, rate, calls, c.at, i) + Inflow(rate, t - c.at) - (if c.granted then 1.0 else 0.0)
  {
    hide Inflow;
    assert Since(calls + [c], i) == Since(calls, i) + [c];
    GrantsAppend(Since(calls, i), c);
    assert InstantAt(calls + [c], i) == InstantAt(calls, i);
    InflowAdds(rate, t - c.at, c.at - InstantAt(calls, i));
  }

  lemma SlackOfLast(max: int, rate: real, calls: seq<Call>, c: Call, t: int)
    ensures Slack(max, rate, calls + [c], t, |calls| + 1)
            == max as real + Inflow(rate, t - c.at) - (if c.granted then 1.0 else 0.0)
  {
    assert Since(calls + [c], |calls| + 1) == [c];
    assert Grants([c]) == if c.granted then 1 else 0;
  }

  lemma SlackShift(max: int, rate: real, calls: seq<Call>, t: int, i: nat)
    requires i <= |calls|
    ensures Slack(max, rate, calls, t, i) == Slack(max, rate, calls, LastAt(calls), i) + Inflow(rate, t - LastAt(calls))
  {
    hide Inflow;
    InflowAdds(rate, t - LastAt(calls), LastAt(calls) - InstantAt(calls, i));
  }

  lemma NoInflow(rate: real)
    ensures Inflow(rate, 0) == 0.0 && Grants([]) == 0
  {
  }

  /** A slack after one more call, for a window that began before it. */
  lemma SlackStep(max: int, rate: real, before: seq<Call>, c: Call, i: nat)
    requires i <= |before|
    ensures Slack(max, rate, before + [c], c.at, i)
            == Slack(max, rate, before, LastAt(before), i) + Inflow(rate, c.at - LastAt(before))
               - (if c.granted then 1.0 else 0.0)
  {
    hide Slack, Inflow;
    SlackAppend(max, rate, before, c, c.at, i);
    SlackShift(max, rate, before, c.at, i);
    assert Inflow(rate, c.at - c.at) == 0.0 by { NoInflow(rate); }
  }

  lemma LevelStep(max: int, rate: real, before: seq<Call>, c: Call)
    ensures Level(max, rate, before + [c])
            == Min(max as real, Level(max, rate, before) + Inflow(rate, c.at - LastAt(before)))
               - (if c.granted then 1.0 else 0.0)
  {
    hide Inflow, LastAt;
    assert (before + [c])[..|before|] == before;
  }

  lemma EmptyHistory(max: int, rate: real)
    ensures Level(max, rate, []) == Slack(max, rate, [], LastAt([]), 0)
  {
    NoInflow(rate);
  }

  lemma OneLast(before: seq<Call>, c: Call)
    ensures LastAt(before + [c]) == c.at
  {
  }

  /** The level is a lower bound of all slacks, and one of them. */
  lemma {:induction false} LevelIsLeastSlack(max: int, rate: real, calls: seq<Call>) returns (least: nat)
    ensures forall i: nat :: i <= |calls| ==> Level(max, rate, calls) <= Slack(max, rate, calls, LastAt(calls), i)
    ensures least <= |calls| && Level(max, rate, calls) == Slack(max, rate, calls, LastAt(calls), least)
    decreases |calls|
  {
    hide Inflow, Slack, Level, LastAt, InstantAt;
    if calls == [] {
      EmptyHistory(max, rate);
      least := 0;
    } else {
      var n := |calls| - 1;
      var before, c := calls[..n], calls[n];
      assert calls == before + [c];
      var k := LevelIsLeastSlack(max, rate, before);
      least := LeastSlackStep(max, rate, before, c, k);
    }
  }

  lemma LeastSlackStep(max: int, rate: real, before: seq<Call>, c: Call, k: nat) returns (least: nat)
    requires forall i: nat :: i <= |before| ==> Level(max, rate, before) <= Slack(max, rate, before, LastAt(before), i)
    requires k <= |before| && Level(max, rate, before) == Slack(max, rate, before, LastAt(before), k)
    ensures var calls := before + [c];
            && (forall i: nat :: i <= |calls| ==> Level(max, rate, calls) <= Slack(max, rate, calls, LastAt(calls), i))
            && least <= |calls| && Level(max, rate, calls) == Slack(max, rate, calls, LastAt(calls), least)
  {
    hide Inflow, Slack, Level, LastAt, InstantAt;
    var calls := before + [c];
    OneLast(before, c);
    SlackOfLast(max, rate, before, c, c.at);
    assert Inflow(rate, c.at - c.at) == 0.0 by { NoInflow(rate); }
    LevelStep(max, rate, before, c);
    forall i: nat | i <= |calls|
      ensures Level(max, rate, calls) <= Slack(max, rate, calls, LastAt(calls), i)
    {
      if i <= |before| {
        SlackStep(max, rate, before, c, i);
      }
    }
    SlackStep(max, rate, before, c, k);
    least := if max as real < Level(max, rate, before) + Inflow(rate, c.at - LastAt(before)) then |before| + 1 else k;
  }

  /** The constant-time decision is the specification's. */
  lemma LevelDecides(max: int, rate: real, calls: seq<Call>, t: int)
    ensures Refilled(max, rate, calls, t) >= 1.0 <==> WindowsAllow(max, rate, calls, t)
  {
    hide Level, Slack, Inflow;
    var least := LevelIsLeastSlack(max, rate, calls);
    forall i: nat | i <= |calls|
      ensures Slack(max, rate, calls, t, i)
              == Slack(max, rate, calls, LastAt(calls), i) + Inflow(rate, t - LastAt(calls))
    {
      SlackShift(max, rate, calls, t, i);
    }
  }

  // ----- Consequences for every window -----

  /** No window between two calls grants more than the capacity plus the rate times its length. */
  lemma {:induction false} WindowBound(max: int, rate: real, calls: seq<Call>, start: int, i: nat, j: nat)
    requires max >= 0 && rate >= 0.0 && Faithful(max, rate, calls, start) && i <= j < |calls|
    ensures Grants(calls[i..j + 1]) as real <= max as real + Inflow(rate, calls[j].at - calls[i].at)
    decreases j
  {
    hide WindowsAllow, Inflow, Grants, Clocked;
    NoInflow(rate);
    ClocksOrdered(calls, start, i + 1, j + 1);
    InflowGrows(rate, 0, calls[j].at - calls[i].at);
    assert calls[i..j + 1] == calls[i..j] + [calls[j]];
    GrantsAppend(calls[i..j], calls[j]);
    if calls[j].granted {
      if i < j {
        GrantedWindow(max, rate, calls, i, j);
      } else {
        assert calls[i..j] == [];
        CapacityNeeded(max, rate, calls[..j], calls[j].at);
      }
    } else if i < j {
      WindowBound(max, rate, calls, start, i, j - 1);
      ClocksOrdered(calls, start, j, j + 1);
      InflowGrows(rate, calls[j - 1].at - calls[i].at, calls[j].at - calls[i].at);
    } else {
      assert calls[i..j] == [];
    }
  }

  lemma CapacityNeeded(max: int, rate: real, calls: seq<Call>, t: int)
    requires WindowsAllow(max, rate, calls, t)
    ensures max >= 1
  {
  }

  lemma GrantedWindow(max: int, rate: real, calls: seq<Call>, i: nat, j: nat)
    requires i < j < |calls| && WindowsAllow(max, rate, calls[..j], calls[j].at)
    ensures Grants(calls[i..j]) as real + 1.0 <= max as real + Inflow(rate, calls[j].at - calls[i].at)
  {
    hide Inflow, Grants;
    var before := calls[..j];
    assert Slack(max, rate, before, calls[j].at, i + 1) >= 1.0;
    assert Since(before, i + 1) == calls[i..j];
  }

  lemma Scales(rate: real, a: real, b: real)
    requires rate >= 0.0 && a <= b
    ensures rate * a <= rate * b
  {
  }

  /** The same in real time: the bucket never over-grants a real window. */
  lemma RealWindowBound(max: int, rate: real, calls: seq<Call>, start: int, i: nat, j: nat)
    requires max >= 0 && rate >= 0.0 && Faithful(max, rate, calls, start) && i <= j < |calls|
    ensures Grants(calls[i..j + 1]) as real
            <= max as real + rate * ((calls[j].now - calls[i].now) as real / NANOS_PER_MILLI as real)
  {
    hide WindowsAllow, Grants, Clocked;
    WindowBound(max, rate, calls, start, i, j);
    ClocksOrdered(calls, start, i + 1, j + 1);
    var millis, nanos := calls[j].at - calls[i].at, calls[j].now - calls[i].now;
    assert NANOS_PER_MILLI * millis <= nanos;
    assert millis as real <= nanos as real / NANOS_PER_MILLI as real;
    Scales(rate, millis as real, nanos as real / NANOS_PER_MILLI as real);
  }

  /** In any minute of real time a bucket for some number of requests per minute grants at most twice that
      number. */
  lemma MinuteBound(perMinute: int, calls: seq<Call>, start: int, i: nat, j: nat)
    requires perMinute >= 0 && Faithful(perMinute, perMinute as real / 60000.0, calls, start) && i <= j < |calls|
    requires calls[j].now - calls[i].now <= 60_000_000_000
    ensures Grants(calls[i..j + 1]) <= 2 * perMinute
  {
    hide Grants, Faithful;
    var rate := perMinute as real / 60000.0;
    RealWindowBound(perMinute, rate, calls, start, i, j);
    var nanos := calls[j].now - calls[i].now;
    MinuteInflow(perMinute, rate, nanos);
    TwiceAsInts(Grants(calls[i..j + 1]), perMinute, rate * (nanos as real / NANOS_PER_MILLI as real));
  }

  lemma MinuteInflow(perMinute: int, rate: real, nanos: int)
    requires perMinute >= 0 && rate == perMinute as real / 60000.0 && nanos <= 60_000_000_000
    ensures rate * (nanos as real / NANOS_PER_MILLI as real) <= perMinute as real
  {
    MinuteInMillis(nanos);
    Scales(rate, nanos as real / NANOS_PER_MILLI as real, 60000.0);
    RatePerMinute(perMinute);
  }

  lemma TwiceAsInts(grants: int, perMinute: int, inflow: real)
    requires grants as real <= perMinute as real + inflow && inflow <= perMinute as real
    ensures grants <= 2 * perMinute
  {
  }

  lemma MinuteInMillis(nanos: int)
    requires nanos <= 60_000_000_000
    ensures nanos as real / NANOS_PER_MILLI as real <= 60000.0
  {
  }

  lemma RatePerMinute(perMinute: int)
    ensures perMinute as real / 60000.0 * 60000.0 == perMinute as real
  {
  }

  /** After a minute without a call the bucket is full again. */
  lemma FullAfterAMinute(perMinute: int, calls: seq<Call>, start: int, now: int)
    requires perMinute >= 0 && Faithful(perMinute, perMinute as real / 60000.0, calls, start)
    requires now - NowAt(calls, start, |calls|) >= 60_000_000_000
    ensures Refilled(perMinute, perMinute as real / 60000.0, calls,
                     LastAt(calls) + (now - NowAt(calls, start, |calls|)) / NANOS_PER_MILLI) == perMinute as real
  {
    hide Faithful, Level, NowAt, LastAt;
    var rate := perMinute as real / 60000.0;
    var millis := (now - NowAt(calls, start, |calls|)) / NANOS_PER_MILLI;
    assert millis >= 60000;
    LevelNeverNegative(perMinute, rate, calls, start);
    InflowGrows(rate, 60000, millis);
    assert Inflow(rate, 60000) == perMinute as real by { RatePerMinute(perMinute); }
  }

  // ----- The bucket -----

  lemma ClocksExtend(calls: seq<Call>, start: int, c: Call)
    requires Clocked(calls, start) && NowAt(calls, start, |calls|) <= c.now
    requires c.at == LastAt(calls) + (c.now - NowAt(calls, start, |calls|)) / NANOS_PER_MILLI
    ensures Clocked(calls + [c], start)
  {
    var longer := calls + [c];
    forall k: nat | k < |longer|
      ensures Ticked(longer, start, k)
    {
      assert NowAt(longer, start, k) == NowAt(calls, start, k) && InstantAt(longer, k) == InstantAt(calls, k);
      assert k < |calls| ==> Ticked(calls, start, k);
    }
  }

  lemma DecisionsExtend(max: int, rate: real, calls: seq<Call>, c: Call)
    requires RightlyDecided(max, rate, calls)
    requires c.granted <==> WindowsAllow(max, rate, calls, c.at)
    ensures RightlyDecided(max, rate, calls + [c])
  {
    hide WindowsAllow;
    var longer := calls + [c];
    assert longer[..|calls|] == calls;
    forall k: nat | k < |calls|
      ensures longer[..k] == calls[..k]
    {
    }
  }

  lemma HistoryExtends(max: int, rate: real, calls: seq<Call>, start: int, c: Call)
    requires Faithful(max, rate, calls, start) && NowAt(calls, start, |calls|) <= c.now
    requires c.at == LastAt(calls) + (c.now - NowAt(calls, start, |calls|)) / NANOS_PER_MILLI
    requires c.granted <==> WindowsAllow(max, rate, calls, c.at)
    ensures Faithful(max, rate, calls + [c], start) && NowAt(calls + [c], start, |calls| + 1) == c.now
    ensures Level(max, rate, calls + [c]) == Refilled(max, rate, calls, c.at) - (if c.granted then 1.0 else 0.0)
  {
    hide WindowsAllow, Inflow, Clocked, RightlyDecided, LastAt;
    ClocksExtend(calls, start, c);
    DecisionsExtend(max, rate, calls, c);
    LevelStep(max, rate, calls, c);
  }

  // ----- What is left -----

  /** Go's conversion of a float to an int. */
  function Truncated(x: real): int {
    if x < 0.0 then -((-x).Floor) else x.Floor
  }

  /** The next k calls when the clock stands still. */
  function Burst(max: int, rate: real, calls: seq<Call>, now: int, k: nat): seq<Call>
    decreases k
  {
    if k == 0 then []
    else
      var before := Burst(max, rate, calls, now, k - 1);
      before + [Call(LastAt(calls), now, WindowsAllow(max, rate, calls + before, LastAt(calls)))]
  }

  /** The whole tokens of a level; one in debt has none. */
  function WholeTokens(level: real): nat {
    if level < 0.0 then 0 else level.Floor
  }

  lemma {:induction false} BurstLevel(max: int, rate: real, calls: seq<Call>, now: int, k: nat)
    ensures var n := WholeTokens(Level(max, rate, calls));
            var burst := Burst(max, rate, calls, now, k);
            && Grants(burst) == (if k < n then k else n)
            && Level(max, rate, calls + burst) == Level(max, rate, calls) - Grants(burst) as real
            && LastAt(calls + burst) == LastAt(calls)
    decreases k
  {
    hide WindowsAllow, Inflow, Level;
    NoInflow(rate);
    if k == 0 {
      assert calls + [] == calls;
    } else {
      BurstLevel(max, rate, calls, now, k - 1);
      LevelWithinCapacity(max, rate, calls);
      var before := Burst(max, rate, calls, now, k - 1);
      var c := Call(LastAt(calls), now, WindowsAllow(max, rate, calls + before, LastAt(calls)));
      LevelDecides(max, rate, calls + before, LastAt(calls));
      assert calls + (before + [c]) == (calls + before) + [c];
      LevelStep(max, rate, calls + before, c);
      GrantsAppend(before, c);
    }
  }

  lemma LevelWithinCapacity(max: int, rate: real, calls: seq<Call>)
    ensures Level(max, rate, calls) <= max as real
  {
  }

  /** A burst of k calls at one clock reading is granted as far as the whole tokens go. */
  lemma BurstGrants(max: int, rate: real, calls: seq<Call>, now: int, k: nat)
    ensures var n := WholeTokens(Level(max, rate, calls));
            Grants(Burst(max, rate, calls, now, k)) == if k < n then k else n
  {
    hide Burst, Level, Grants;
    BurstLevel(max, rate, calls, now, k);
  }

  /** Of any number of further calls at one clock reading just n are granted, or none if n is negative. */
  ghost predicate GrantsJust(max: int, rate: real, calls: seq<Call>, n: int) {
    forall now: int, k: nat :: Grants(Burst(max, rate, calls, now, k)) == if k < n then k else if n < 0 then 0 else n
  }

  lemma TruncatedLevelGranted(max: int, rate: real, calls: seq<Call>)
    ensures GrantsJust(max, rate, calls, Truncated(Level(max, rate, calls)))
  {
    hide Level, Burst, Grants;
    forall now: int, k: nat
      ensures Grants(Burst(max, rate, calls, now, k))
              == if k < WholeTokens(Level(max, rate, calls)) then k else WholeTokens(Level(max, rate, calls))
    {
      BurstGrants(max, rate, calls, now, k);
    }
  }

  /** With a capacity and a rate that are not negative a bucket is never in debt. */
  lemma {:induction false} LevelNeverNegative(max: int, rate: real, calls: seq<Call>, start: int)
    requires max >= 0 && rate >= 0.0 && Faithful(max, rate, calls, start)
    ensures Level(max, rate, calls) >= 0.0
    decreases |calls|
  {
    hide WindowsAllow, Inflow, Level;
    if calls == [] {
      FullAtFirst(max, rate);
    } else {
      var n := |calls| - 1;
      var before, c := calls[..n], calls[n];
      assert calls == before + [c];
      HistoryShrinks(max, rate, before, c, start);
      LevelNeverNegative(max, rate, before, start);
      LevelStep(max, rate, before, c);
      ClocksOrdered(calls, start, n, n + 1);
      assert InstantAt(calls, n) == LastAt(before);
      NoInflow(rate);
      InflowGrows(rate, 0, c.at - LastAt(before));
      LevelDecides(max, rate, before, c.at);
      assert calls[..n] == before;
    }
  }

  lemma FullAtFirst(max: int, rate: real)
    ensures Level(max, rate, []) == max as real
  {
  }

  lemma HistoryShrinks(max: int, rate: real, before: seq<Call>, c: Call, start: int)
    requires Faithful(max, rate, before + [c], start)
    ensures Faithful(max, rate, before, start)
  {
    hide WindowsAllow;
    var calls := before + [c];
    forall k: nat | k < |before|
      ensures before[k].granted <==> WindowsAllow(max, rate, before[..k], before[k].at)
      ensures Ticked(before, start, k)
    {
      assert calls[k] == before[k] && calls[..k] == before[..k];
      assert Ticked(calls, start, k);
    }
  }

  class TokenBucket {
    const maxTokens: int
    const refillRate: real
    var tokens: real
    var lastRefill: int
    ghost var start: int
    ghost var calls: seq<Call>

    /** The level is that of the history, whose decisions are all the specification's. */
    ghost predicate Valid()
      reads this
    {
      && tokens == Level(maxTokens, refillRate, calls)
      && Faithful(maxTokens, refillRate, calls, start)
      && lastRefill == NowAt(calls, start, |calls|)
    }

    constructor (requestsPerMinute: int, now: int)
      ensures Valid() && calls == [] && start == lastRefill == now
      ensures maxTokens == requestsPerMinute && refillRate == requestsPerMinute as real / 60000.0
    {
      maxTokens := requestsPerMinute;
      refillRate := requestsPerMinute as real / 60000.0;
      tokens := requestsPerMinute as real;
      lastRefill := now;
      start := now;
      calls := [];
    }

    /** Takes a token. The fraction of a millisecond since the last refill is dropped. */
    method Take(now: int) returns (granted: bool)
      requires Valid() && lastRefill <= now
      modifies this
      ensures Valid() && lastRefill == now && start == old(start)
      ensures var t := LastAt(old(calls)) + (now - old(lastRefill)) / NANOS_PER_MILLI;
              && (granted <==> WindowsAllow(maxTokens, refillRate, old(calls), t))
              && calls == old(calls) + [Call(t, now, granted)]
    {
      hide Inflow, WindowsAllow, Faithful, Level, LastAt, NowAt;
      var elapsed := (now - lastRefill) / NANOS_PER_MILLI;
      ghost var t := LastAt(calls) + elapsed;
      LevelDecides(maxTokens, refillRate, calls, t);
      lastRefill := now;
      var tokensToAdd := Inflow(refillRate, elapsed);
      tokens := Min(maxTokens as real, tokens + tokensToAdd);
      granted := tokens >= 1.0;
      if granted {
        tokens := tokens - 1.0;
      }
      HistoryExtends(maxTokens, refillRate, calls, start, Call(t, now, granted));
      calls := calls + [Call(t, now, granted)];
    }

    /** The tokens left, truncated to a whole number: of any k further calls, as many as the bucket would
        grant without another refill. */
    method GetRemaining() returns (n: int)
      requires Valid()
      ensures n == Truncated(tokens) && GrantsJust(maxTokens, refillRate, calls, n)
      ensures maxTokens >= 0 && refillRate >= 0.0 ==> n >= 0
    {
      hide GrantsJust, Level, Faithful;
      n := if tokens < 0.0 then -((-tokens).Floor) else tokens.Floor;
      TruncatedLevelGranted(maxTokens, refillRate, calls);
      if maxTokens >= 0 && refillRate >= 0.0 {
        LevelNeverNegative(maxTokens, refillRate, calls, start);
      }
    }
  }

  /** A bucket that is asked more than once a millisecond never refills: its millisecond clock stands
      still, and however long this goes on it grants no more than its capacity. */
  lemma SubMillisecondStarvation(max: int, rate: real, calls: seq<Call>, start: int)
    requires max >= 0 && rate >= 0.0 && Faithful(max, rate, calls, start)
    requires forall k: nat :: k < |calls| ==> calls[k].now - NowAt(calls, start, k) < NANOS_PER_MILLI
    ensures Grants(calls) <= max
  {
    hide RightlyDecided, Inflow, Ticked;
    NoInflow(rate);
    if calls != [] {
      StandsStill(calls, start, |calls|);
      StandsStill(calls, start, 1);
      hide Clocked, Grants;
      WindowBound(max, rate, calls, start, 0, |calls| - 1);
      assert calls[0..|calls|] == calls;
    }
  }

  /** The nanoseconds the millisecond clock has dropped by refill instant i. */
  function Lost(calls: seq<Call>, start: int, i: nat): int
    requires i <= |calls|
  {
    NowAt(calls, start, i) - start - NANOS_PER_MILLI * InstantAt(calls, i)
  }

  predicate WholeGap(calls: seq<Call>, start: int, k: nat)
    requires k < |calls|
  {
    (calls[k].now - NowAt(calls, start, k)) % NANOS_PER_MILLI == 0
  }

  lemma TickLoses(calls: seq<Call>, start: int, k: nat)
    requires k < |calls| && Ticked(calls, start, k)
    ensures Lost(calls, start, k + 1) >= Lost(calls, start, k)
    ensures Lost(calls, start, k + 1) == Lost(calls, start, k) <==> WholeGap(calls, start, k)
  {
  }

  /** The millisecond clock keeps up with the real one exactly when every gap between refills is a whole
      number of milliseconds. */
  lemma {:induction false} ClockKeepsUpIff(calls: seq<Call>, start: int, i: nat)
    requires Clocked(calls, start) && i <= |calls|
    ensures Lost(calls, start, i) >= 0
    ensures Lost(calls, start, i) == 0 <==> forall k: nat :: k < i ==> WholeGap(calls, start, k)
    decreases i
  {
    hide Ticked, WholeGap;
    if i == 0 {
    } else {
      hide Lost;
      ClockKeepsUpIff(calls, start, i - 1);
      assert Ticked(calls, start, i - 1);
      TickLoses(calls, start, i - 1);
    }
  }

  lemma {:induction false} StandsStill(calls: seq<Call>, start: int, i: nat)
    requires Clocked(calls, start) && i <= |calls|
    requires forall k: nat :: k < |calls| ==> calls[k].now - NowAt(calls, start, k) < NANOS_PER_MILLI
    ensures InstantAt(calls, i) == 0
    decreases i
  {
    if i == 0 {
    } else {
      StandsStill(calls, start, i - 1);
      assert Ticked(calls, start, i - 1);
    }
  }

  lemma NewBucketGrants(limit: int)
    ensures GrantsJust(limit, limit as real / 60000.0, [], limit)
  {
    hide GrantsJust, Level;
    FullAtFirst(limit, limit as real / 60000.0);
    TruncatedLevelGranted(limit, limit as real / 60000.0, []);
  }

  class RateLimiter {
    const defaultLimit: int
    var buckets: map<string, TokenBucket>

    ghost predicate Valid()
      reads this, buckets.Values
    {
      && (forall t <- buckets :: buckets[t].Valid() && buckets[t].maxTokens == defaultLimit
                                 && buckets[t].refillRate == defaultLimit as real / 60000.0)
      && (forall t, u :: t in buckets && u in buckets && t != u ==> buckets[t] != buckets[u])
    }

    constructor (defaultLimit: int)
      ensures Valid() && buckets == map[] && this.defaultLimit == defaultLimit
    {
      this.defaultLimit := defaultLimit;
      buckets := map[];
    }

    /** The history of one tenant; a tenant not seen yet has none. */
    ghost function History(tenant: string): seq<Call>
      reads this, buckets.Values
    {
      if tenant in buckets then buckets[tenant].calls else []
    }

    /** Decides for one tenant by that tenant's history alone and leaves every other history as it
        was. A first request opens the bucket, reading the clock before the decision reads it. */
    method Allow(tenant: string, first: int, now: int) returns (granted: bool)
      requires Valid() && first <= now
      requires tenant in buckets ==> buckets[tenant].lastRefill <= now
      modifies this, buckets.Values
      ensures Valid() && fresh(buckets.Values - old(buckets.Values))
      ensures forall t <- old(buckets) :: t in buckets && buckets[t] == old(buckets)[t]
      ensures buckets.Keys == old(buckets).Keys + {tenant}
      ensures forall t :: t != tenant ==> History(t) == old(History(t))
      ensures |History(tenant)| == |old(History(tenant))| + 1
              && History(tenant)[..|old(History(tenant))|] == old(History(tenant))
      ensures var last := History(tenant)[|old(History(tenant))|];
              last.granted == granted && last.now == now
              && last.at == LastAt(old(History(tenant)))
                            + (now - if tenant in old(buckets) then old(buckets[tenant].lastRefill) else first)
                              / NANOS_PER_MILLI
              && (granted
                  <==> WindowsAllow(defaultLimit, defaultLimit as real / 60000.0, old(History(tenant)), last.at))
    {
      hide WindowsAllow, LastAt, TokenBucket.Valid, Faithful, Level, NowAt;
      if tenant !in buckets {
        var opening := new TokenBucket(defaultLimit, first);
        buckets := buckets[tenant := opening];
      }
      var bucket := buckets[tenant];
      granted := bucket.Take(now);
    }

    /** Of any k further calls of the tenant at one clock reading, as many as would be granted without another
        refill; a tenant not seen yet has a full bucket. */
    method GetRemaining(tenant: string) returns (n: int)
      requires Valid()
      ensures GrantsJust(defaultLimit, defaultLimit as real / 60000.0, History(tenant), n)
      ensures defaultLimit >= 0 ==> n >= 0
      ensures tenant !in buckets ==> n == defaultLimit
    {
      hide GrantsJust, TokenBucket.Valid, Truncated;
      if tenant !in buckets {
        NewBucketGrants(defaultLimit);
        return defaultLimit;
      }
      n := buckets[tenant].GetRemaining();
    }
  }
}
