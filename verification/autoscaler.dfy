/**
 The builtin autoscaler (engine/internal/autoscaler/builtin.go): one scaling decision per tick, from the
 ready replicas, the current metric and the time since the computed number first became zero. Rates and
 metrics are real numbers, times are nanoseconds of a clock that does not run backwards.
 */
module Autoscaler {
  import opened Common

  type Time = int

  /** `maxReplicas` zero means no upper limit. */
  datatype Config = Config(
    target: real, minReplicas: nat, maxReplicas: nat, upRate: real, downRate: real, grace: nat)

  /** What configuration validation demands. */
  predicate Valid(c: Config) {
    && c.target > 0.0 && c.upRate > 0.0 && c.downRate > 0.0
    && (c.maxReplicas != 0 ==> c.minReplicas <= c.maxReplicas)
  }

  /** The inputs of one tick. */
  datatype Tick = Tick(now: Time, spec: nat, ready: nat, metric: real)

  function AtLeast(a: int, b: int): int {
    if a > b then a else b
  }

  function AtMost(a: int, b: int): int {
    if a < b then a else b
  }

  /** The computed number of replicas, within the configured limits. */
  function Wanted(c: Config, t: Tick): (n: nat)
    requires Valid(c)
    ensures InRange(c, n)
  {
    var n := AtLeast(c.minReplicas, Ceil(t.metric / AtLeast(t.ready, 1) as real / c.target));
    if c.maxReplicas > 0 then AtMost(n, c.maxReplicas) else n
  }

  predicate InRange(c: Config, n: int) {
    c.minReplicas <= n && (c.maxReplicas > 0 ==> n <= c.maxReplicas)
  }

  /** When the computed number became zero, if it is zero now. */
  function Since(c: Config, last: Option<Time>, t: Tick): Option<Time>
    requires Valid(c)
  {
    if Wanted(c, t) != 0 then None else if last.None? then Some(t.now) else last
  }

  /** Within the grace period one replica is kept. */
  function Graced(c: Config, last: Option<Time>, t: Tick): (n: nat)
    requires Valid(c)
    ensures InRange(c, n)
  {
    if Wanted(c, t) == 0 && t.now - Since(c, last, t).value < c.grace then 1 else Wanted(c, t)
  }

  /** The step towards a number of replicas is limited by the rates. */
  function Ramped(c: Config, t: Tick, n: nat): nat
    requires Valid(c)
  {
    if n < t.spec then AtLeast(n, FloorOf(t.ready, c.downRate))
    else if n > t.spec then AtMost(n, CeilOf(AtLeast(1, t.ready), c.upRate))
    else n
  }

  function FloorOf(n: nat, rate: real): (m: nat)
    requires rate > 0.0
  {
    NonNegative(n as real, rate);
    (n as real * rate).Floor
  }

  function CeilOf(n: nat, rate: real): (m: nat)
    requires rate > 0.0
  {
    NonNegative(n as real, rate);
    Ceil(n as real * rate)
  }

  function Decide(c: Config, last: Option<Time>, t: Tick): nat
    requires Valid(c)
  {
    Ramped(c, t, Graced(c, last, t))
  }

  class Scaler {
    const config: Config
    var lastTransitToZero: Option<Time>

    constructor (config: Config)
      ensures this.config == config && lastTransitToZero == None
    {
      this.config, lastTransitToZero := config, None;
    }

    /** The number of replicas to scale to, or None to leave the stateful set alone. */
    method Scale(t: Tick) returns (to: Option<nat>)
      requires Valid(config)
      modifies this
      ensures lastTransitToZero == Since(config, old(lastTransitToZero), t)
      ensures (if to.Some? then to.value else t.spec) == Decide(config, old(lastTransitToZero), t)
      ensures to.Some? ==> to.value != t.spec
    {
      var desired := Ceil(t.metric / AtLeast(t.ready, 1) as real / config.target);
      var newReplicas: nat := AtLeast(config.minReplicas, desired);
      if config.maxReplicas > 0 {
        newReplicas := AtMost(newReplicas, config.maxReplicas);
      }
      if newReplicas == 0 {
        if lastTransitToZero.None? {
          lastTransitToZero := Some(t.now);
        }
        if t.now - lastTransitToZero.value < config.grace {
          newReplicas := 1;
        }
      } else {
        lastTransitToZero := None;
      }
      if newReplicas < t.spec {
        newReplicas := AtLeast(newReplicas, FloorOf(t.ready, config.downRate));
      } else if newReplicas > t.spec {
        newReplicas := AtMost(newReplicas, CeilOf(AtLeast(1, t.ready), config.upRate));
      }
      return if newReplicas != t.spec then Some(newReplicas) else None;
    }
  }

  // ---------------------------------------------------------------------------------------------
  // Rates.

  lemma NonNegative(x: real, y: real)
    requires x >= 0.0 && y > 0.0
    ensures x * y >= 0.0
  {
  }

  lemma Scaled(n: real, a: real, b: real)
    requires n >= 0.0 && a <= b
    ensures n * a <= n * b
    ensures n > 0.0 && a < b ==> n * a < n * b
  {
  }

  lemma ScaledBy(a: real, b: real, rate: real)
    requires a <= b && rate > 0.0
    ensures a * rate <= b * rate
  {
  }

  lemma Shrinks(x: real, rate: real)
    requires x >= 0.0 && 0.0 < rate < 1.0
    ensures x * rate <= x && (x > 0.0 ==> x * rate < x)
  {
    Scaled(x, rate, 1.0);
  }

  lemma BelowAll(m: int, n: nat, x: real, y: real)
    requires x == n as real && m as real <= y && y <= x && (x > 0.0 ==> y < x)
    ensures m <= n && (n > 0 ==> m < n)
  {
  }

  lemma WholeBelow(m: int, n: nat, x: real, rate: real)
    requires 0.0 < rate < 1.0 && x == n as real && m as real <= x * rate
    ensures m <= n && (n > 0 ==> m < n)
  {
    Shrinks(x, rate);
    BelowAll(m, n, x, x * rate);
  }

  lemma FloorShrinks(n: nat, rate: real)
    requires 0.0 < rate < 1.0
    ensures FloorOf(n, rate) <= n && (n > 0 ==> FloorOf(n, rate) < n)
  {
    WholeBelow(FloorOf(n, rate), n, n as real, rate);
  }

  lemma FloorKeeps(n: nat)
    ensures FloorOf(n, 1.0) == n
  {
  }

  lemma FloorGrows(n: nat, rate: real)
    requires rate > 1.0
    ensures FloorOf(n, rate) >= n
  {
    Scaled(n as real, 1.0, rate);
  }

  lemma FloorBelow(n: nat, rate: real)
    requires rate > 0.0
    ensures rate <= 1.0 ==> FloorOf(n, rate) <= n
    ensures n > 0 ==> (FloorOf(n, rate) < n <==> rate < 1.0)
  {
    if rate < 1.0 {
      FloorShrinks(n, rate);
    } else if rate == 1.0 {
      FloorKeeps(n);
    } else {
      FloorGrows(n, rate);
    }
  }

  lemma CeilAbove(n: nat, rate: real)
    requires rate > 0.0 && n > 0
    ensures CeilOf(n, rate) >= 1
    ensures CeilOf(n, rate) > n <==> rate > 1.0
  {
    var x := n as real;
    ProductSign(x, rate);
    if rate > 1.0 {
      Scaled(x, 1.0, rate);
      assert x < x * rate;
    } else {
      Scaled(x, rate, 1.0);
      assert x * rate <= x;
    }
  }

  // ---------------------------------------------------------------------------------------------
  // What is computed.

  /** With `n` replicas at their target, the metric per ready pod is covered. */
  ghost predicate Covers(c: Config, t: Tick, n: int) {
    n as real * c.target >= t.metric / AtLeast(t.ready, 1) as real
  }

  lemma CoversIff(c: Config, t: Tick, n: int)
    requires Valid(c)
    ensures Covers(c, t, n) <==> n >= Ceil(t.metric / AtLeast(t.ready, 1) as real / c.target)
  {
    var load := t.metric / AtLeast(t.ready, 1) as real;
    QuotientSign(load, c.target);
    ScaledOrder(load / c.target, n as real, c.target, load);
  }

  lemma ScaledOrder(x: real, y: real, k: real, kx: real)
    requires k > 0.0 && kx == x * k
    ensures y * k >= kx <==> y >= x
  {
    ProductSign(y - x, k);
    assert (y - x) * k == y * k - kx;
  }

  /** The computed number is the least one within the limits that covers the load, or the upper limit if that does
      not cover it. So a load is never left without a replica. */
  lemma WantedIsLeast(c: Config, t: Tick)
    requires Valid(c)
    ensures InRange(c, Wanted(c, t))
    ensures Covers(c, t, Wanted(c, t)) || (c.maxReplicas > 0 && Wanted(c, t) == c.maxReplicas)
    ensures forall n :: c.minReplicas <= n < Wanted(c, t) ==> !Covers(c, t, n)
    ensures t.metric > 0.0 ==> Wanted(c, t) >= 1
  {
    CoversIff(c, t, Wanted(c, t));
    forall n | c.minReplicas <= n < Wanted(c, t) ensures !Covers(c, t, n) {
      CoversIff(c, t, n);
    }
    if t.metric > 0.0 {
      CoversIff(c, t, 0);
      QuotientSign(t.metric, AtLeast(t.ready, 1) as real);
    }
  }

  /** How far one tick goes. Down: no further than what is wanted, and it keeps the downward rate's share of the ready
      replicas, less a fraction; it goes as far as that allows. Up: the same with the upward rate's multiple. */
  lemma RampIsTight(c: Config, t: Tick, wanted: nat, m: nat)
    requires Valid(c)
    ensures wanted == t.spec ==> Ramped(c, t, wanted) == t.spec
    ensures wanted < t.spec ==> (m >= Ramped(c, t, wanted) <==> m >= wanted && m as real > t.ready as real * c.downRate - 1.0)
    ensures wanted > t.spec ==>
      (m <= Ramped(c, t, wanted) <==> m <= wanted && (m as real) < AtLeast(1, t.ready) as real * c.upRate + 1.0)
  {
  }

  // ---------------------------------------------------------------------------------------------
  // Staying in range.

  /** A tick at which all replicas asked for are ready. */
  function At(now: Time, n: nat, metric: real): Tick {
    Tick(now, n, n, metric)
  }

  /** From inside the limits, one tick never leads outside. */
  ghost predicate NeverLeaves(c: Config)
    requires Valid(c)
  {
    forall last: Option<Time>, now: Time, n: nat, metric: real ::
      InRange(c, n) ==> InRange(c, Decide(c, last, At(now, n, metric)))
  }

  /** The rates may turn a step round, but not at the limits so far as to leave them. */
  predicate RatesAreSafe(c: Config) {
    c.maxReplicas == 0 || c.minReplicas < c.maxReplicas ==>
      && c.minReplicas as real * c.upRate > c.minReplicas as real - 1.0
      && (c.maxReplicas > 0 ==> c.maxReplicas as real * c.downRate < c.maxReplicas as real + 1.0)
  }

  lemma SafeFloor(n: nat, max: nat, rate: real)
    requires n <= max && rate > 0.0 && max as real * rate < max as real + 1.0
    ensures FloorOf(n, rate) <= max
  {
    ScaledBy(n as real, max as real, rate);
  }

  lemma SafeCeil(n: nat, min: nat, rate: real)
    requires min <= n && rate > 0.0 && min as real * rate > min as real - 1.0
    ensures CeilOf(n, rate) >= min
  {
    ScaledBy(min as real, n as real, rate);
  }

  lemma SafeStays(c: Config, last: Option<Time>, t: Tick)
    requires Valid(c) && RatesAreSafe(c) && t.spec == t.ready && InRange(c, t.spec)
    ensures InRange(c, Decide(c, last, t))
  {
    var n := Graced(c, last, t);
    if n < t.spec && c.maxReplicas > 0 {
      SafeFloor(t.ready, c.maxReplicas, c.downRate);
    } else if n > t.spec {
      SafeCeil(AtLeast(1, t.ready), c.minReplicas, c.upRate);
    }
  }

  /** With a metric of zero for as long as it takes, as few replicas as allowed are wanted. */
  lemma WantsMin(c: Config, t: Tick)
    requires Valid(c) && t.metric == 0.0
    ensures Wanted(c, t) == c.minReplicas
    ensures Graced(c, Some(t.now - c.grace), t) == c.minReplicas
  {
    assert t.metric / AtLeast(t.ready, 1) as real / c.target == 0.0;
  }

  /** With metric target * ready * (min + 1) one more than the minimum is wanted. */
  lemma WantsMore(c: Config, last: Option<Time>, t: Tick)
    requires Valid(c) && (c.maxReplicas == 0 || c.minReplicas < c.maxReplicas)
    requires t.metric == (c.minReplicas + 1) as real * c.target * AtLeast(t.ready, 1) as real
    ensures Graced(c, last, t) == c.minReplicas + 1
  {
    var m, k := (c.minReplicas + 1) as real, AtLeast(t.ready, 1) as real;
    Divided(m * c.target, k);
    Divided(m, c.target);
    assert t.metric == m * c.target * k;
    assert t.metric / k == m * c.target;
    assert t.metric / k / c.target == m * c.target / c.target;
    CeilOfInt(c.minReplicas + 1);
    assert t.metric / k / c.target == m;
    assert t.metric / AtLeast(t.ready, 1) as real / c.target == m;
    assert Ceil(t.metric / AtLeast(t.ready, 1) as real / c.target) == c.minReplicas + 1;
    assert Wanted(c, t) == c.minReplicas + 1;
  }

  lemma CeilOfInt(n: int)
    ensures Ceil(n as real) == n
  {
  }

  lemma Divided(x: real, y: real)
    requires y > 0.0
    ensures x * y / y == x
  {
  }

  lemma GentleRatesAreSafe(c: Config)
    requires c.upRate >= 1.0 && c.downRate <= 1.0
    ensures RatesAreSafe(c)
  {
    Scaled(c.minReplicas as real, 1.0, c.upRate);
    Scaled(c.maxReplicas as real, c.downRate, 1.0);
  }

  /** Validation alone does not keep replicas within their limits. It does if and only if the rates are
      safe at the limits; an up rate of at least one and a down rate of at most one always are. */
  lemma NeverLeavesIff(c: Config)
    requires Valid(c)
    ensures NeverLeaves(c) <==> RatesAreSafe(c)
  {
    if RatesAreSafe(c) {
      forall last: Option<Time>, now: Time, n: nat, metric: real | InRange(c, n)
        ensures InRange(c, Decide(c, last, At(now, n, metric)))
      {
        SafeStays(c, last, At(now, n, metric));
      }
    } else if c.minReplicas as real * c.upRate <= c.minReplicas as real - 1.0 {
      LeavesBelow(c);
    } else {
      LeavesAbove(c);
    }
  }

  lemma LeavesBelow(c: Config)
    requires Valid(c) && (c.maxReplicas == 0 || c.minReplicas < c.maxReplicas)
    requires c.minReplicas as real * c.upRate <= c.minReplicas as real - 1.0
    ensures !NeverLeaves(c)
  {
    var n := c.minReplicas;
    CeilDrops(n, c.upRate);
    var t := At(0, n, (n + 1) as real * c.target * AtLeast(n, 1) as real);
    WantsMore(c, None, t);
    assert Decide(c, None, t) == CeilOf(n, c.upRate);
    assert !InRange(c, Decide(c, None, At(0, n, t.metric)));
  }

  lemma CeilDrops(n: nat, rate: real)
    requires rate > 0.0 && n as real * rate <= n as real - 1.0
    ensures n > 0 && CeilOf(n, rate) < n
  {
    NonNegative(n as real, rate);
  }

  lemma FloorRises(n: nat, rate: real)
    requires rate > 0.0 && n as real * rate >= n as real + 1.0
    ensures FloorOf(n, rate) > n
  {
  }

  lemma LeavesAbove(c: Config)
    requires Valid(c) && c.minReplicas < c.maxReplicas
    requires c.maxReplicas as real * c.downRate >= c.maxReplicas as real + 1.0
    ensures !NeverLeaves(c)
  {
    var n := c.maxReplicas;
    FloorRises(n, c.downRate);
    WantsMin(c, At(0, n, 0.0));
    assert !InRange(c, Decide(c, Some(0 - c.grace), At(0, n, 0.0)));
  }

  /** The same for any number of ready replicas, which need not be the number asked for. */
  ghost predicate NeverLeavesWith(c: Config, ready: nat)
    requires Valid(c)
  {
    forall last: Option<Time>, now: Time, n: nat, metric: real ::
      InRange(c, n) ==> InRange(c, Decide(c, last, Tick(now, n, ready, metric)))
  }

  predicate StepsAreSafe(c: Config, ready: nat) {
    c.maxReplicas == 0 || c.minReplicas < c.maxReplicas ==>
      && AtLeast(1, ready) as real * c.upRate > c.minReplicas as real - 1.0
      && (c.maxReplicas > 0 ==> ready as real * c.downRate < c.maxReplicas as real + 1.0)
  }

  lemma SafeStepStays(c: Config, last: Option<Time>, t: Tick)
    requires Valid(c) && StepsAreSafe(c, t.ready) && InRange(c, t.spec)
    ensures InRange(c, Decide(c, last, t))
  {
    var n := Graced(c, last, t);
    if n < t.spec && c.maxReplicas > 0 {
      FloorReaches(t.ready, c.downRate, c.maxReplicas);
    } else if n > t.spec {
      CeilReaches(AtLeast(1, t.ready), c.upRate, c.minReplicas);
    }
  }

  /** For any number of ready replicas: no tick leads outside the limits if and only if a step up from the
      ready ones reaches the lower limit and a step down from them does not exceed the upper one. */
  lemma NeverLeavesWithIff(c: Config, ready: nat)
    requires Valid(c)
    ensures NeverLeavesWith(c, ready) <==> StepsAreSafe(c, ready)
  {
    if StepsAreSafe(c, ready) {
      forall last: Option<Time>, now: Time, n: nat, metric: real | InRange(c, n)
        ensures InRange(c, Decide(c, last, Tick(now, n, ready, metric)))
      {
        SafeStepStays(c, last, Tick(now, n, ready, metric));
      }
    } else if AtLeast(1, ready) as real * c.upRate <= c.minReplicas as real - 1.0 {
      LeavesBelowWith(c, ready);
    } else {
      LeavesAboveWith(c, ready);
    }
  }

  lemma LeavesBelowWith(c: Config, ready: nat)
    requires Valid(c) && (c.maxReplicas == 0 || c.minReplicas < c.maxReplicas)
    requires AtLeast(1, ready) as real * c.upRate <= c.minReplicas as real - 1.0
    ensures !NeverLeavesWith(c, ready)
  {
    var n := c.minReplicas;
    CeilReaches(AtLeast(1, ready), c.upRate, n);
    var t := Tick(0, n, ready, (n + 1) as real * c.target * AtLeast(ready, 1) as real);
    WantsMore(c, None, t);
    assert Decide(c, None, t) == CeilOf(AtLeast(1, ready), c.upRate);
    assert !InRange(c, Decide(c, None, Tick(0, n, ready, t.metric)));
  }

  lemma LeavesAboveWith(c: Config, ready: nat)
    requires Valid(c) && c.minReplicas < c.maxReplicas
    requires ready as real * c.downRate >= c.maxReplicas as real + 1.0
    ensures !NeverLeavesWith(c, ready)
  {
    var n := c.maxReplicas;
    FloorReaches(ready, c.downRate, n);
    WantsMin(c, Tick(0, n, ready, 0.0));
    assert !InRange(c, Decide(c, Some(0 - c.grace), Tick(0, n, ready, 0.0)));
  }

  lemma CeilReaches(n: nat, rate: real, min: nat)
    requires rate > 0.0
    ensures CeilOf(n, rate) >= min <==> n as real * rate > min as real - 1.0
  {
  }

  lemma FloorReaches(n: nat, rate: real, max: nat)
    requires rate > 0.0
    ensures FloorOf(n, rate) <= max <==> n as real * rate < max as real + 1.0
  {
  }

  /** No configuration with room between its limits is safe for every number of ready replicas if it has an
      upper limit, and without one it takes an up rate above the lower limit less one. */
  lemma NeverLeavesAtAllIff(c: Config)
    requires Valid(c)
    ensures (forall ready: nat :: NeverLeavesWith(c, ready))
            <==> if c.maxReplicas == 0 then c.upRate > c.minReplicas as real - 1.0 else c.minReplicas == c.maxReplicas
  {
    forall ready: nat ensures NeverLeavesWith(c, ready) <==> StepsAreSafe(c, ready) {
      NeverLeavesWithIff(c, ready);
    }
    if c.maxReplicas == 0 {
      SafeFromNone(c);
    } else if c.minReplicas < c.maxReplicas {
      var ready := ManyReady(c.maxReplicas, c.downRate);
      assert !StepsAreSafe(c, ready);
    }
  }

  lemma SafeFromNone(c: Config)
    requires Valid(c) && c.maxReplicas == 0
    ensures (forall ready: nat :: StepsAreSafe(c, ready)) <==> c.upRate > c.minReplicas as real - 1.0
  {
    assert StepsAreSafe(c, 0) <==> 1.0 * c.upRate > c.minReplicas as real - 1.0;
    forall ready: nat | c.upRate > c.minReplicas as real - 1.0 ensures StepsAreSafe(c, ready) {
      ScaledBy(1.0, AtLeast(1, ready) as real, c.upRate);
    }
  }

  lemma ManyReady(max: nat, rate: real) returns (ready: nat)
    requires rate > 0.0
    ensures ready as real * rate >= max as real + 1.0
  {
    var x := (max as real + 1.0) / rate;
    QuotientSign(max as real + 1.0, rate);
    ready := AtLeast(Ceil(x), 0);
    ScaledBy(x, ready as real, rate);
  }

  // ---------------------------------------------------------------------------------------------
  // Coming into range.

  function Distance(c: Config, n: nat): nat {
    if n < c.minReplicas then c.minReplicas - n
    else if c.maxReplicas > 0 && n > c.maxReplicas then n - c.maxReplicas
    else 0
  }

  /** From outside the limits, every tick leads closer to them. */
  ghost predicate Converges(c: Config)
    requires Valid(c)
  {
    forall last: Option<Time>, now: Time, n: nat, metric: real ::
      !InRange(c, n) ==> Distance(c, Decide(c, last, At(now, n, metric))) < Distance(c, n)
  }

  predicate RatesMove(c: Config) {
    (c.minReplicas > 1 ==> c.upRate > 1.0) && (c.maxReplicas > 0 ==> c.downRate < 1.0)
  }

  lemma MovesCloser(c: Config, last: Option<Time>, t: Tick)
    requires Valid(c) && RatesMove(c) && t.spec == t.ready && !InRange(c, t.spec)
    ensures Distance(c, Decide(c, last, t)) < Distance(c, t.spec)
  {
    if t.spec < c.minReplicas {
      CeilAbove(AtLeast(1, t.ready), c.upRate);
    } else {
      FloorBelow(t.ready, c.downRate);
    }
  }

  lemma ConvergesIff(c: Config)
    requires Valid(c)
    ensures Converges(c) <==> RatesMove(c)
  {
    if RatesMove(c) {
      forall last: Option<Time>, now: Time, n: nat, metric: real | !InRange(c, n)
        ensures Distance(c, Decide(c, last, At(now, n, metric))) < Distance(c, n)
      {
        MovesCloser(c, last, At(now, n, metric));
      }
    } else if c.minReplicas > 1 && c.upRate <= 1.0 {
      // One replica stays one.
      CeilAbove(1, c.upRate);
      assert Decide(c, None, At(0, 1, 0.0)) <= 1;
      assert !InRange(c, 1);
    } else {
      var n := c.maxReplicas + 1;
      FloorBelow(n, c.downRate);
      assert Decide(c, None, At(0, n, 0.0)) >= n;
      assert !InRange(c, n);
    }
  }

  // ---------------------------------------------------------------------------------------------
  // Runs.

  /** `lasts[i]` and `ticks[i]` are what the scaler sees at tick i. */
  ghost predicate Run(c: Config, lasts: seq<Option<Time>>, ticks: seq<Tick>)
    requires Valid(c)
  {
    && |lasts| == |ticks| && (|lasts| > 0 ==> lasts[0] == None)
    && (forall i :: 0 < i < |ticks| ==> lasts[i] == Since(c, lasts[i - 1], ticks[i - 1]))
    && (forall i, j :: 0 <= i < j < |ticks| ==> ticks[i].now <= ticks[j].now)
  }

  /** Between ticks the stateful set becomes what was decided, and all of it becomes ready. */
  ghost predicate Follows(c: Config, lasts: seq<Option<Time>>, ticks: seq<Tick>)
    requires Valid(c) && |lasts| == |ticks|
  {
    && (forall i :: 0 <= i < |ticks| ==> ticks[i].ready == ticks[i].spec)
    && (forall i :: 0 < i < |ticks| ==> ticks[i].spec == Decide(c, lasts[i - 1], ticks[i - 1]))
  }

  /** With rates that move, replicas come within the limits after at most as many ticks as they were away
      from them, and with an up rate above and a down rate below one they stay. */
  lemma {:induction false} ComesIntoRange(c: Config, lasts: seq<Option<Time>>, ticks: seq<Tick>, n: nat)
    requires Valid(c) && RatesMove(c) && RatesAreSafe(c)
    requires Run(c, lasts, ticks) && Follows(c, lasts, ticks) && n < |ticks|
    ensures n >= Distance(c, ticks[0].spec) ==> InRange(c, ticks[n].spec)
    ensures Distance(c, ticks[n].spec) == 0 || Distance(c, ticks[n].spec) + n <= Distance(c, ticks[0].spec)
  {
    if n > 0 {
      ComesIntoRange(c, lasts, ticks, n - 1);
      if InRange(c, ticks[n - 1].spec) {
        SafeStays(c, lasts[n - 1], ticks[n - 1]);
      } else {
        MovesCloser(c, lasts[n - 1], ticks[n - 1]);
      }
    }
  }

  /** At every tick from `from` to `n` zero replicas were computed. */
  ghost predicate AllZero(c: Config, ticks: seq<Tick>, from: nat, n: nat)
    requires Valid(c) && n < |ticks|
  {
    from <= n && forall i :: from <= i <= n ==> Wanted(c, ticks[i]) == 0
  }

  lemma {:induction false} SinceIsStreak(c: Config, lasts: seq<Option<Time>>, ticks: seq<Tick>, n: nat) returns (from: nat)
    requires Valid(c) && Run(c, lasts, ticks) && n < |ticks| && Wanted(c, ticks[n]) == 0
    ensures AllZero(c, ticks, from, n) && Since(c, lasts[n], ticks[n]) == Some(ticks[from].now)
    ensures from > 0 ==> Wanted(c, ticks[from - 1]) != 0
  {
    if n == 0 || Wanted(c, ticks[n - 1]) != 0 {
      from := n;
      assert lasts[n] == None;
    } else {
      from := SinceIsStreak(c, lasts, ticks, n - 1);
    }
  }

  ghost predicate LongZero(c: Config, ticks: seq<Tick>, n: nat)
    requires Valid(c) && n < |ticks|
  {
    exists from: nat :: AllZero(c, ticks, from, n) && ticks[n].now - ticks[from].now >= c.grace
  }

  /** The scaler aims at zero if and only if every tick over at least the grace period computed zero. */
  lemma ZeroIff(c: Config, lasts: seq<Option<Time>>, ticks: seq<Tick>, n: nat)
    requires Valid(c) && Run(c, lasts, ticks) && n < |ticks|
    ensures Graced(c, lasts[n], ticks[n]) == 0 <==> LongZero(c, ticks, n)
  {
    if Wanted(c, ticks[n]) == 0 {
      var from := SinceIsStreak(c, lasts, ticks, n);
      if Graced(c, lasts[n], ticks[n]) == 0 {
        assert ticks[n].now - ticks[from].now >= c.grace;
      }
      if LongZero(c, ticks, n) {
        var j: nat :| AllZero(c, ticks, j, n) && ticks[n].now - ticks[j].now >= c.grace;
        assert from <= j;
      }
    }
  }

  /** So replicas become zero only then, or are left at zero; whatever the ready replicas were. */
  lemma ScalesToZeroOnlyAfterGrace(c: Config, lasts: seq<Option<Time>>, ticks: seq<Tick>, n: nat)
    requires Valid(c) && Run(c, lasts, ticks) && n < |ticks|
    requires Decide(c, lasts[n], ticks[n]) == 0
    ensures LongZero(c, ticks, n)
  {
    ZeroIff(c, lasts, ticks, n);
    CeilAbove(AtLeast(1, ticks[n].ready), c.upRate);
  }
}
