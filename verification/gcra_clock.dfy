/**
 The window bound of the rate limiter in wall-clock time, for each configuration. The store's clock jumps
 ahead at every full second, and a limiter that saves up credit lets it through.
 */
module GcraClock {
  import opened Common
  import opened Gcra

  const MICRO := 0.000001

  /** Every request is made at a reading of the store's clock, and costs a whole number of tokens. */
  ghost predicate Stamped(reqs: seq<Request>, ticks: seq<int>) {
    && |reqs| == |ticks|
    && forall i :: 0 <= i < |reqs| ==> reqs[i].now == Clock(ticks[i]) && reqs[i].cost.Floor as real == reqs[i].cost
  }

  /** In wall-clock time: what is allowed in any window is at most the burst plus one token per interval. */
  ghost predicate WallBound(c: Config)
    requires c.Valid()
  {
    forall data, reqs, ticks, key, u: int, v: int :: Admissible(c, reqs, ticks) && u <= v ==> WithinWall(c, data, reqs, key, u, v)
  }

  ghost predicate Admissible(c: Config, reqs: seq<Request>, ticks: seq<int>)
    requires c.Valid()
  {
    Stamped(reqs, ticks) && NonNegative(reqs) && Priced(reqs, c.Interval())
  }

  ghost predicate WithinWall(c: Config, data: map<string, real>, reqs: seq<Request>, key: string, u: int, v: int)
    requires c.Valid()
  {
    u <= v ==> AllowedCost(reqs, Run(data, c.BurstOffset(), reqs), key, Clock(u), Clock(v)) <= Allowance(c.burst, v - u, c.Interval())
  }

  /** The bound for a window of so many microseconds. */
  function Allowance(burst: int, micros: nat, interval: real): real
    requires interval > 0.0
  {
    burst as real + micros as real * MICRO / interval
  }

  lemma ClockOrdered(x: int, y: int)
    ensures Clock(x) <= Clock(y) <==> x <= y
  {
    if x <= y {
      ClockGains(x, y);
    } else {
      ClockGains(y, x);
    }
  }

  // ---------------------------------------------------------------------------------------------
  // A burst worth no more than a microsecond: nothing can be saved up from one reading to the next.

  lemma {:induction false} LastTick(reqs: seq<Request>, ds: seq<Decision>, ticks: seq<int>, key: string, u: int, v: int)
    requires |reqs| == |ds| && Stamped(reqs, ticks) && u < v
    ensures AllowedCost(reqs, ds, key, Clock(u), Clock(v))
         == AllowedCost(reqs, ds, key, Clock(u), Clock(v - 1)) + AllowedCost(reqs, ds, key, Clock(v), Clock(v))
  {
    if reqs != [] {
      assert Stamped(reqs[1..], ticks[1..]);
      LastTick(reqs[1..], ds[1..], ticks[1..], key, u, v);
      var t := ticks[0];
      ClockOrdered(u, t);
      ClockOrdered(t, v);
      ClockOrdered(t, v - 1);
      ClockOrdered(v, t);
    }
  }

  function Times(n: nat, burst: int): int {
    if n == 0 then 0 else Times(n - 1, burst) + burst
  }

  lemma {:induction false} TimesIs(n: nat, burst: int)
    ensures Times(n, burst) == n * burst
  {
    if n > 0 {
      TimesIs(n - 1, burst);
    }
  }

  /** At one reading of the clock at most the burst is allowed. */
  lemma OneTick(c: Config, data: map<string, real>, reqs: seq<Request>, key: string, v: int)
    requires c.Valid() && NonNegative(reqs) && Priced(reqs, c.Interval())
    ensures AllowedCost(reqs, Run(data, c.BurstOffset(), reqs), key, Clock(v), Clock(v)) <= c.burst as real
  {
    WindowBound(c, data, reqs, key, Clock(v), Clock(v));
    NoWidth(Clock(v), c.Interval());
  }

  lemma NoWidth(x: real, interval: real)
    requires interval > 0.0
    ensures (x - x) / interval == 0.0
  {
    QuotientSign(x - x, interval);
  }

  lemma {:induction false} PerTick(c: Config, data: map<string, real>, reqs: seq<Request>, ticks: seq<int>, key: string, u: int, v: int)
    requires c.Valid() && u <= v && Admissible(c, reqs, ticks)
    ensures AllowedCost(reqs, Run(data, c.BurstOffset(), reqs), key, Clock(u), Clock(v)) <= Times(v - u + 1, c.burst) as real
    decreases v - u
  {
    OneTick(c, data, reqs, key, v);
    if u < v {
      PerTick(c, data, reqs, ticks, key, u, v - 1);
      LastTick(reqs, Run(data, c.BurstOffset(), reqs), ticks, key, u, v);
    }
  }

  lemma SmallBurst(steps: nat, burst: int, interval: real, total: real)
    requires interval > 0.0 && burst as real * interval <= MICRO && total <= Times(steps + 1, burst) as real
    ensures total <= Allowance(burst, steps, interval)
  {
    TimesIs(steps + 1, burst);
    QuotientSign(steps as real * MICRO, interval);
    var x := burst as real;
    ScaledBy(x * interval, MICRO, steps as real);
    var rest := steps as real * x - steps as real * MICRO / interval;
    assert rest * interval <= 0.0;
    ProductSign(rest, interval);
    assert ((steps + 1) * burst) as real == x + steps as real * x;
  }

  lemma SmallBurstBound(c: Config, data: map<string, real>, reqs: seq<Request>, ticks: seq<int>, key: string, u: int, v: int)
    requires c.Valid() && c.burst as real * c.Interval() <= MICRO && Admissible(c, reqs, ticks) && u <= v
    ensures WithinWall(c, data, reqs, key, u, v)
  {
    PerTick(c, data, reqs, ticks, key, u, v);
    SmallBurst(v - u, c.burst, c.Interval(), AllowedCost(reqs, Run(data, c.BurstOffset(), reqs), key, Clock(u), Clock(v)));
  }

  lemma ScaledBy(a: real, b: real, k: real)
    requires a <= b && k >= 0.0
    ensures k * a <= k * b
  {
  }

  // ---------------------------------------------------------------------------------------------
  // A larger burst: two takes, one before and one after the clock has jumped.

  /** A take of the burst and, at the end, one of `more` tokens. */
  function TwoRequests(c: Config, start: real, end: real, more: nat): seq<Request>
    requires c.Valid()
  {
    [Request("k", start, c.burst as real, c.Interval() * c.burst as real),
     Request("k", end, more as real, c.Interval() * more as real)]
  }

  lemma BothPass(c: Config, start: real, end: real, more: nat)
    requires c.Valid() && start <= end && more <= c.burst && c.Interval() * more as real <= end - start
    ensures var reqs := TwoRequests(c, start, end, more);
            AllowedCost(reqs, Run(map[], c.BurstOffset(), reqs), "k", start, end) == (c.burst + more) as real
  {
    ScaledBy(more as real, c.burst as real, c.Interval());
    TwoDecisions(TwoRequests(c, start, end, more), c.BurstOffset(), start, end);
  }

  lemma TwoDecisions(reqs: seq<Request>, offset: real, start: real, end: real)
    requires |reqs| == 2 && start <= end
    requires reqs[0].key == reqs[1].key == "k" && reqs[0].now == start && reqs[1].now == end
    requires reqs[0].debt == offset && reqs[1].debt <= end - start && reqs[1].debt <= offset
    ensures AllowedCost(reqs, Run(map[], offset, reqs), "k", start, end) == reqs[0].cost + reqs[1].cost
  {
    assert reqs[1..] == [reqs[1]];
    var ds := Run(map[], offset, reqs);
    assert ds[1..] == Run(After(map[], reqs[0], offset), offset, [reqs[1]]);
    assert AllowedCost(reqs[1..], ds[1..], "k", start, end) == reqs[1].cost;
  }

  /** A window whose clock gains enough for `more` tokens, while the wall clock does not. */
  ghost predicate Jumps(c: Config, u: int, v: int, more: nat)
    requires c.Valid()
  {
    && u <= v && more <= c.burst
    && c.Interval() * more as real <= Clock(v) - Clock(u)
    && (v - u) as real * MICRO < c.Interval() * more as real
  }

  lemma JumpBreaksBound(c: Config, u: int, v: int, more: nat)
    requires c.Valid() && Jumps(c, u, v, more)
    ensures !WallBound(c)
  {
    var reqs := TwoRequests(c, Clock(u), Clock(v), more);
    TwoAreAdmissible(c, u, v, more);
    TwoExceed(c, u, v, more);
    assert !WithinWall(c, map[], reqs, "k", u, v);
  }

  lemma TwoAreAdmissible(c: Config, u: int, v: int, more: nat)
    requires c.Valid()
    ensures Admissible(c, TwoRequests(c, Clock(u), Clock(v), more), [u, v])
  {
    ScaledBy(0.0, c.burst as real, c.Interval());
    ScaledBy(0.0, more as real, c.Interval());
  }

  lemma TwoExceed(c: Config, u: int, v: int, more: nat)
    requires c.Valid() && Jumps(c, u, v, more)
    ensures !WithinWall(c, map[], TwoRequests(c, Clock(u), Clock(v), more), "k", u, v)
  {
    ClockOrdered(u, v);
    BothPass(c, Clock(u), Clock(v), more);
    Exceeds(c.burst, more, v - u, c.Interval());
  }

  lemma Exceeds(burst: int, more: nat, micros: nat, interval: real)
    requires interval > 0.0 && micros as real * MICRO < interval * more as real
    ensures (burst + more) as real > Allowance(burst, micros, interval)
  {
    var wall := micros as real * MICRO;
    QuotientSign(wall, interval);
    ProductSign(more as real - wall / interval, interval);
    assert (more as real - wall / interval) * interval == interval * more as real - wall;
  }

  /** Up to one second: across one second boundary the clock gains a second within a microsecond. */
  lemma ShortInterval(c: Config) returns (more: nat)
    requires c.Valid() && c.burst as real * c.Interval() > MICRO && c.Interval() <= 1.0
    ensures Jumps(c, 999_999, 1_000_000, more)
  {
    ClockGains(999_999, 1_000_000);
    var i := c.Interval();
    var whole := (1.0 / i).Floor;
    QuotientSign(1.0, i);
    HalfAtLeast(i, whole);
    if c.burst <= whole {
      more := c.burst;
      ScaledBy(c.burst as real, whole as real, i);
    } else {
      more := whole;
    }
  }

  lemma HalfAtLeast(i: real, whole: int)
    requires 0.0 < i <= 1.0 && whole == (1.0 / i).Floor
    ensures whole >= 1 && 0.5 <= i * whole as real <= 1.0
  {
    var x := 1.0 / i;
    QuotientSign(1.0, i);
    assert x * i == 1.0;
    ProductSign(x - 1.0, i);
    assert (x - 1.0) * i == 1.0 - i;
    assert x >= 1.0;
    ScaledBy(whole as real, x, i);
    assert 2.0 * whole as real >= x;
    ScaledBy(x, 2.0 * whole as real, i);
  }

  /** More than a second: the clock runs almost twice as fast. */
  lemma LongInterval(c: Config) returns (u: int, v: int)
    requires c.Valid() && c.Interval() > 1.0
    ensures Jumps(c, u, v, 1)
  {
    var i := c.Interval();
    if 1.9 < i <= 2.0 {
      u, v := 999_999, 2_000_000;
      ClockGains(u, v);
    } else {
      var k := Ceil(i) - 1;
      u, v := 0, k * 1_000_000;
      WholeSeconds(k);
    }
  }

  lemma WholeSeconds(k: nat)
    ensures Clock(k * 1_000_000) - Clock(0) == k as real * 1.999999
    ensures (k * 1_000_000) as real * MICRO == k as real
  {
    ClockGains(0, k * 1_000_000);
  }

  /** For each configuration: the window bound holds in wall-clock time if and only if the whole burst is
      worth at most a microsecond, the step of the clock. */
  lemma WallBoundIff(c: Config)
    requires c.Valid()
    ensures WallBound(c) <==> c.burst as real * c.Interval() <= MICRO
  {
    if c.burst as real * c.Interval() <= MICRO {
      forall data, reqs, ticks, key, u: int, v: int | Admissible(c, reqs, ticks) && u <= v
        ensures WithinWall(c, data, reqs, key, u, v)
      {
        SmallBurstBound(c, data, reqs, ticks, key, u, v);
      }
    } else if c.Interval() <= 1.0 {
      var more := ShortInterval(c);
      JumpBreaksBound(c, 999_999, 1_000_000, more);
    } else {
      var u, v := LongInterval(c);
      JumpBreaksBound(c, u, v, 1);
    }
  }
}
