/**
 The in-memory rate limiter of server/internal/rate: the Generic Cell Rate Algorithm in
 virtual-scheduling form (Annex A of ITU-T I.371), the token bucket it stands for, the Redis form of
 the same algorithm, and the clock the in-memory store reads.

 Time is a real number of seconds on the store's own clock.
 */
module Gcra {
  import opened Common

  /** A validated configuration: `rate` tokens per `period` seconds, and at most `burst` at once. */
  datatype Config = Config(rate: int, period: real, burst: int) {
    ghost predicate Valid() {
      rate > 0 && period > 0.0 && burst > 0
    }

    function Interval(): (interval: real)
      requires rate > 0 && period > 0.0
      ensures interval > 0.0 && interval * rate as real == period
    {
      period / rate as real
    }

    function BurstOffset(): real
      requires rate > 0 && period > 0.0
    {
      burst as real * Interval()
    }
  }

  /** The theoretical arrival time after a take that costs `debt` seconds, if it is allowed. */
  function NewTat(tat: Option<real>, now: real, debt: real): real {
    (if tat.Some? then Max(tat.value, now) else now) + debt
  }

  /** The decision on one take. `slack` is how long before `now` the take became possible, negative
      if it is not possible yet; `resetAfter` is when the key is as good as unused. */
  datatype Decision = Decision(allowed: bool, slack: real, resetAfter: real)

  function Decide(tat: Option<real>, now: real, debt: real, burstOffset: real): Decision {
    var newTat := NewTat(tat, now, debt);
    var slack := now - (newTat - burstOffset);
    Decision(slack >= 0.0, slack, Ceil(newTat - now) as real)
  }

  /** What a take leaves stored under its key: the new arrival time if allowed, else what was there. */
  function Stored(tat: Option<real>, now: real, debt: real, burstOffset: real): Option<real> {
    if Decide(tat, now, debt, burstOffset).allowed then Some(NewTat(tat, now, debt)) else tat
  }

  /** What the caller is told. */
  datatype Verdict = Verdict(allowed: bool, remaining: real, retryAfter: real, resetAfter: real)

  function Report(d: Decision, interval: real): Verdict
    requires interval > 0.0
  {
    if d.allowed then Verdict(true, d.slack / interval, 0.0, d.resetAfter)
    else Verdict(false, 0.0, -d.slack, d.resetAfter)
  }

  const NANOS := 1000000000.0

  /** What a caller gets: `remaining` in whole tokens, durations in whole nanoseconds. */
  datatype Result = Result(allowed: bool, limit: int, remaining: int, retryAfter: int, resetAfter: int)

  /** Rounds towards zero. */
  function Truncate(x: real): int {
    if x >= 0.0 then x.Floor else -((-x).Floor)
  }

  function InWholeUnits(v: Verdict, burst: int): Result {
    Result(v.allowed, burst, Truncate(v.remaining), Truncate(v.retryAfter * NANOS), Truncate(v.resetAfter * NANOS))
  }

  /** The store, with the clock reading as a parameter of each take. */
  class MemoryStore {
    const interval: real
    const burst: int
    const burstOffset: real
    var data: map<string, real>

    constructor (c: Config)
      requires c.Valid()
      ensures data == map[] && interval == c.Interval() && burst == c.burst && burstOffset == c.BurstOffset()
    {
      data := map[];
      interval := c.Interval();
      burst := c.burst;
      burstOffset := c.BurstOffset();
    }

    /** In whole tokens and nanoseconds, rounded towards zero. */
    method Take(key: string, now: real, cost: int) returns (r: Result)
      requires interval > 0.0
      modifies this`data
      ensures r == InWholeUnits(Report(Decide(Lookup(old(data), key), now, interval * cost as real, burstOffset), interval), burst)
      ensures Lookup(data, key) == Stored(Lookup(old(data), key), now, interval * cost as real, burstOffset)
      ensures data - {key} == old(data) - {key}
      ensures r.limit == burst && (r.allowed ==> r.retryAfter == 0) && (!r.allowed ==> r.remaining == 0)
      ensures r.allowed && cost >= 0 ==> MoreIff(Lookup(data, key), now, interval, burstOffset, r.remaining)
    {
      if cost >= 0 {
        ProductSign(cost as real, interval);
        TakenResult(Lookup(data, key), now, interval, interval * cost as real, burstOffset, burst);
      }
      var v := TakeTokens(key, now, cost);
      r := Result(v.allowed, burst, Truncate(v.remaining), Truncate(v.retryAfter * NANOS), Truncate(v.resetAfter * NANOS));
    }

    method TakeTokens(key: string, now: real, cost: int) returns (v: Verdict)
      requires interval > 0.0
      modifies this`data
      ensures v == Report(Decide(Lookup(old(data), key), now, interval * cost as real, burstOffset), interval)
      ensures Lookup(data, key) == Stored(Lookup(old(data), key), now, interval * cost as real, burstOffset)
      ensures data - {key} == old(data) - {key}
    {
      var tat := now;
      if key in data {
        tat := data[key];
      }
      var newTat := Max(tat, now) + interval * cost as real;
      var allowAt := newTat - burstOffset;
      var diff := now - allowAt;
      var remaining := diff / interval;
      var resetAfter := Ceil(newTat - now) as real;
      if remaining < 0.0 {
        QuotientSign(diff, interval);
        return Verdict(false, 0.0, diff * -1.0, resetAfter);
      }
      QuotientSign(diff, interval);
      data := data[key := newTat];
      v := Verdict(true, remaining, 0.0, resetAfter);
    }
  }

  // ---------------------------------------------------------------------------------------------
  // Runs: any interleaving of takes on any keys.

  /** A take of `cost` tokens, worth `debt` seconds. */
  datatype Request = Request(key: string, now: real, cost: real, debt: real)

  /** Each token is worth one interval. */
  ghost predicate Priced(reqs: seq<Request>, interval: real) {
    forall i :: 0 <= i < |reqs| ==> reqs[i].debt == interval * reqs[i].cost
  }

  ghost predicate Ordered(reqs: seq<Request>) {
    forall i, j :: 0 <= i < j < |reqs| ==> reqs[i].now <= reqs[j].now
  }

  ghost predicate NonNegative(reqs: seq<Request>) {
    forall i :: 0 <= i < |reqs| ==> reqs[i].cost >= 0.0 && reqs[i].debt >= 0.0
  }

  function After(data: map<string, real>, r: Request, burstOffset: real): map<string, real> {
    var tat := Lookup(data, r.key);
    var stored := Stored(tat, r.now, r.debt, burstOffset);
    if stored.Some? then data[r.key := stored.value] else data
  }

  /** The decisions of a run of takes. */
  function Run(data: map<string, real>, burstOffset: real, reqs: seq<Request>): (ds: seq<Decision>)
    ensures |ds| == |reqs|
    decreases |reqs|
  {
    if reqs == [] then []
    else
      [Decide(Lookup(data, reqs[0].key), reqs[0].now, reqs[0].debt, burstOffset)] +
      Run(After(data, reqs[0], burstOffset), burstOffset, reqs[1..])
  }

  predicate Counts(r: Request, d: Decision, key: string, a: real, b: real) {
    d.allowed && r.key == key && a <= r.now <= b
  }

  /** Total debt allowed for `key` at times in [a, b]. */
  function AllowedDebt(reqs: seq<Request>, ds: seq<Decision>, key: string, a: real, b: real): real
    requires |reqs| == |ds|
  {
    if reqs == [] then 0.0
    else (if Counts(reqs[0], ds[0], key, a, b) then reqs[0].debt else 0.0) + AllowedDebt(reqs[1..], ds[1..], key, a, b)
  }

  /** Total cost allowed for `key` at times in [a, b]. */
  function AllowedCost(reqs: seq<Request>, ds: seq<Decision>, key: string, a: real, b: real): real
    requires |reqs| == |ds|
  {
    if reqs == [] then 0.0
    else (if Counts(reqs[0], ds[0], key, a, b) then reqs[0].cost else 0.0) + AllowedCost(reqs[1..], ds[1..], key, a, b)
  }

  /** The arrival time stored for a key, seen from the start of a window. */
  function Horizon(data: map<string, real>, key: string, a: real): real {
    if key in data then Max(data[key], a) else a
  }

  lemma HorizonStep(data: map<string, real>, burstOffset: real, r: Request, key: string, a: real, b: real)
    requires burstOffset >= 0.0 && a <= b && r.debt >= 0.0
    ensures var d := Decide(Lookup(data, r.key), r.now, r.debt, burstOffset);
            var h, h' := Horizon(data, key, a), Horizon(After(data, r, burstOffset), key, a);
            && (Counts(r, d, key, a, b) ==> h + r.debt <= h' <= b + burstOffset)
            && (!Counts(r, d, key, a, b) ==> h <= h')
            && (h' == h || h' <= b + burstOffset || h' >= b + burstOffset)
            && (d.allowed && r.key == key && r.now <= b ==> h' <= b + burstOffset)
  {
  }

  /** The potential argument: debt allowed in the window pushes the stored arrival time up, and an
      allowed take never pushes it past `now + burstOffset`. */
  lemma {:induction false} HorizonBound(
    data: map<string, real>, burstOffset: real, reqs: seq<Request>, key: string, a: real, b: real)
    requires burstOffset >= 0.0 && a <= b && NonNegative(reqs)
    ensures var total := AllowedDebt(reqs, Run(data, burstOffset, reqs), key, a, b);
            total > 0.0 ==> Horizon(data, key, a) + total <= b + burstOffset
    decreases |reqs|
  {
    if reqs != [] {
      HorizonBound(After(data, reqs[0], burstOffset), burstOffset, reqs[1..], key, a, b);
      HorizonStep(data, burstOffset, reqs[0], key, a, b);
      assert Run(data, burstOffset, reqs)[1..] == Run(After(data, reqs[0], burstOffset), burstOffset, reqs[1..]);
    }
  }

  ghost predicate AdditiveAt(price: real -> real, x: real, y: real) {
    price(x + y) == price(x) + price(y)
  }

  lemma {:induction false} DebtIsPrice(reqs: seq<Request>, ds: seq<Decision>, key: string, a: real, b: real, price: real -> real)
    requires |reqs| == |ds| && price(0.0) == 0.0 && forall x, y :: AdditiveAt(price, x, y)
    requires forall i :: 0 <= i < |reqs| ==> reqs[i].debt == price(reqs[i].cost)
    ensures AllowedDebt(reqs, ds, key, a, b) == price(AllowedCost(reqs, ds, key, a, b))
  {
    if reqs != [] {
      DebtIsPrice(reqs[1..], ds[1..], key, a, b, price);
      assert AdditiveAt(price, reqs[0].cost, AllowedCost(reqs[1..], ds[1..], key, a, b));
    }
  }

  /** What a number of tokens is worth. */
  function Worth(interval: real): real -> real {
    (tokens: real) => interval * tokens
  }

  lemma WorthIsAdditive(interval: real)
    ensures Worth(interval)(0.0) == 0.0 && forall x, y :: AdditiveAt(Worth(interval), x, y)
  {
    forall x, y ensures AdditiveAt(Worth(interval), x, y) {
      Distribute(interval, x, y);
    }
  }

  lemma DebtIsCost(reqs: seq<Request>, ds: seq<Decision>, key: string, a: real, b: real, interval: real)
    requires |reqs| == |ds| && Priced(reqs, interval)
    ensures AllowedDebt(reqs, ds, key, a, b) == interval * AllowedCost(reqs, ds, key, a, b)
  {
    WorthIsAdditive(interval);
    DebtIsPrice(reqs, ds, key, a, b, Worth(interval));
  }

  lemma Distribute(x: real, y: real, z: real)
    ensures x * (y + z) == x * y + x * z
  {
  }

  /** The promise of the limiter: in every run, for every key and window [a, b], the cost allowed in
      the window is at most the burst plus one token per interval of the window. The run may start
      from any stored state, and the clock may even run backwards. */
  lemma WindowBound(c: Config, data: map<string, real>, reqs: seq<Request>, key: string, a: real, b: real)
    requires c.Valid() && a <= b && NonNegative(reqs) && Priced(reqs, c.Interval())
    ensures AllowedCost(reqs, Run(data, c.BurstOffset(), reqs), key, a, b) <= c.burst as real + (b - a) / c.Interval()
  {
    OffsetSign(c);
    DebtBound(data, c.BurstOffset(), reqs, key, a, b);
    CostBound(c, reqs, Run(data, c.BurstOffset(), reqs), key, a, b);
  }

  lemma CostBound(c: Config, reqs: seq<Request>, ds: seq<Decision>, key: string, a: real, b: real)
    requires c.Valid() && a <= b && |reqs| == |ds| && Priced(reqs, c.Interval())
    requires var debt := AllowedDebt(reqs, ds, key, a, b); debt > 0.0 ==> debt <= b - a + c.BurstOffset()
    ensures AllowedCost(reqs, ds, key, a, b) <= c.burst as real + (b - a) / c.Interval()
  {
    DebtIsCost(reqs, ds, key, a, b, c.Interval());
    WithinBudget(c, AllowedCost(reqs, ds, key, a, b), AllowedDebt(reqs, ds, key, a, b), b - a);
  }

  lemma DebtBound(data: map<string, real>, offset: real, reqs: seq<Request>, key: string, a: real, b: real)
    requires offset >= 0.0 && a <= b && NonNegative(reqs)
    ensures var debt := AllowedDebt(reqs, Run(data, offset, reqs), key, a, b);
            debt > 0.0 ==> debt <= b - a + offset
  {
    HorizonBound(data, offset, reqs, key, a, b);
  }

  lemma WithinBudget(c: Config, cost: real, debt: real, width: real)
    requires c.Valid() && width >= 0.0 && debt == c.Interval() * cost
    requires debt > 0.0 ==> debt <= width + c.BurstOffset()
    ensures cost <= c.burst as real + width / c.Interval()
  {
    DivideBound(cost, c.burst as real, width, c.Interval());
  }

  lemma OffsetSign(c: Config)
    requires c.Valid()
    ensures c.BurstOffset() > 0.0
  {
    ProductSign(c.burst as real, c.Interval());
  }

  lemma DivideBound(total: real, burst: real, width: real, interval: real)
    requires interval > 0.0 && width >= 0.0 && burst >= 0.0
    requires interval * total > 0.0 ==> interval * total <= width + burst * interval
    ensures total <= burst + width / interval
  {
    QuotientSign(width, interval);
    ProductSign(total, interval);
    ProductSign(total - burst - width / interval, interval);
    assert (total - burst - width / interval) * interval == interval * total - burst * interval - width / interval * interval;
  }

  // ---------------------------------------------------------------------------------------------
  // The token bucket, kept in seconds of credit: it refills one second per second up to the burst
  // offset, and a take of n tokens needs n intervals.

  datatype Bucket = Bucket(credit: real, last: real)

  function Refilled(b: Bucket, now: real, capacity: real): real {
    Min(capacity, b.credit + (now - b.last))
  }

  function BucketTake(b: Bucket, now: real, capacity: real, debt: real): (bool, Bucket) {
    var credit := Refilled(b, now, capacity);
    if credit >= debt then (true, Bucket(credit - debt, now)) else (false, Bucket(credit, now))
  }

  /** For each take of one key: whether the bucket allows it, and the credit it finds. */
  function BucketRun(b: Bucket, capacity: real, reqs: seq<Request>): seq<(bool, real)>
    decreases |reqs|
  {
    if reqs == [] then []
    else
      var (allowed, b') := BucketTake(b, reqs[0].now, capacity, reqs[0].debt);
      [(allowed, Refilled(b, reqs[0].now, capacity))] + BucketRun(b', capacity, reqs[1..])
  }

  /** A bucket and a stored arrival time describe the same line in time, or the bucket is full and
      the arrival time has passed. */
  ghost predicate Coupled(b: Bucket, tat: Option<real>, burstOffset: real) {
    || (tat.Some? && b.credit == burstOffset - (tat.value - b.last))
    || (b.credit >= burstOffset && (tat.Some? ==> tat.value <= b.last))
  }

  /** The credit of a key, read off its stored arrival time. */
  function Credit(tat: Option<real>, now: real, burstOffset: real): real {
    burstOffset - Max(0.0, if tat.Some? then tat.value - now else 0.0)
  }

  lemma TakeRefinesBucket(b: Bucket, tat: Option<real>, now: real, burstOffset: real, debt: real)
    requires b.last <= now && Coupled(b, tat, burstOffset)
    ensures var (allowed, b') := BucketTake(b, now, burstOffset, debt);
            && Decide(tat, now, debt, burstOffset).allowed == allowed
            && Refilled(b, now, burstOffset) == Credit(tat, now, burstOffset)
            && Credit(tat, now, burstOffset) == Decide(tat, now, debt, burstOffset).slack + debt
            && b'.last == now
            && Coupled(b', Stored(tat, now, debt, burstOffset), burstOffset)
  {
  }

  /** The requests of a run that are for one key, and for each of them the decision and the credit. */
  function ForKey(reqs: seq<Request>, ds: seq<Decision>, key: string): (seq<Request>, seq<(bool, real)>)
    requires |reqs| == |ds|
    decreases |reqs|
  {
    if reqs == [] then ([], [])
    else
      var (rs, ws) := ForKey(reqs[1..], ds[1..], key);
      if reqs[0].key == key then ([reqs[0]] + rs, [(ds[0].allowed, ds[0].slack + reqs[0].debt)] + ws) else (rs, ws)
  }

  lemma AfterAt(data: map<string, real>, r: Request, burstOffset: real, key: string)
    ensures Lookup(After(data, r, burstOffset), key)
         == if r.key == key then Stored(Lookup(data, key), r.now, r.debt, burstOffset) else Lookup(data, key)
  {
  }

  lemma BucketRunStep(b: Bucket, capacity: real, r: Request, rest: seq<Request>)
    ensures var (allowed, b') := BucketTake(b, r.now, capacity, r.debt);
            BucketRun(b, capacity, [r] + rest) == [(allowed, Refilled(b, r.now, capacity))] + BucketRun(b', capacity, rest)
  {
    assert ([r] + rest)[1..] == rest;
  }

  /** In every run on any mix of keys, each key is served exactly like its own token bucket, which
      starts full: the same takes are allowed, and each finds the same credit. */
  lemma {:induction false} RunRefinesBucket(b: Bucket, data: map<string, real>, burstOffset: real, reqs: seq<Request>, key: string)
    requires Ordered(reqs)
    requires reqs == [] || b.last <= reqs[0].now
    requires Coupled(b, Lookup(data, key), burstOffset)
    ensures var (rs, ws) := ForKey(reqs, Run(data, burstOffset, reqs), key);
            BucketRun(b, burstOffset, rs) == ws
    decreases |reqs|
  {
    if reqs != [] {
      var r, data' := reqs[0], After(data, reqs[0], burstOffset);
      assert Run(data, burstOffset, reqs)[1..] == Run(data', burstOffset, reqs[1..]);
      AfterAt(data, r, burstOffset, key);
      if r.key == key {
        TakeRefinesBucket(b, Lookup(data, key), r.now, burstOffset, r.debt);
        var b' := BucketTake(b, r.now, burstOffset, r.debt).1;
        RunRefinesBucket(b', data', burstOffset, reqs[1..], key);
        var (rs, ws) := ForKey(reqs[1..], Run(data', burstOffset, reqs[1..]), key);
        BucketRunStep(b, burstOffset, r, rs);
      } else {
        RunRefinesBucket(b, data', burstOffset, reqs[1..], key);
      }
    }
  }

  /** In tokens: a take is allowed exactly when the level covers its cost, and then `remaining` is
      what is left of the level. */
  lemma ReportIsLevel(tat: Option<real>, now: real, interval: real, burst: real, cost: real)
    requires interval > 0.0
    ensures var v := Report(Decide(tat, now, interval * cost, burst * interval), interval);
            var level := Credit(tat, now, burst * interval) / interval;
            v.allowed == (level >= cost) && (v.allowed ==> v.remaining == level - cost)
  {
    TokensFromSeconds(interval, cost, Credit(tat, now, burst * interval));
  }

  lemma TokensFromSeconds(interval: real, cost: real, credit: real)
    requires interval > 0.0
    ensures credit - interval * cost >= 0.0 <==> credit / interval >= cost
    ensures (credit - interval * cost) / interval == credit / interval - cost
  {
    QuotientSign(credit, interval);
    ProductSign(credit / interval - cost, interval);
    assert (credit / interval - cost) * interval == credit - interval * cost;
  }

  // ---------------------------------------------------------------------------------------------
  // Retry and reset times.

  /** A denied caller that asks for no more than the burst succeeds at `now + retryAfter` and at no
      earlier time, as long as no other take of the key is allowed; one that asks for more than the
      burst never succeeds. A denied take leaves the stored arrival time alone. */
  lemma RetryIsTight(tat: Option<real>, now: real, interval: real, burst: real, cost: real, later: real)
    requires interval > 0.0 && now <= later
    requires !Decide(tat, now, interval * cost, burst * interval).allowed
    ensures Stored(tat, now, interval * cost, burst * interval) == tat
    ensures var v := Report(Decide(tat, now, interval * cost, burst * interval), interval);
            && v.retryAfter > 0.0
            && (Decide(tat, later, interval * cost, burst * interval).allowed <==>
                cost <= burst && later >= now + v.retryAfter)
  {
    RetryOfDebt(tat, now, interval, burst, cost, interval * cost, burst * interval, later);
  }

  lemma RetryOfDebt(tat: Option<real>, now: real, interval: real, burst: real, cost: real, debt: real, burstOffset: real, later: real)
    requires interval > 0.0 && now <= later && debt == interval * cost && burstOffset == burst * interval
    requires !Decide(tat, now, debt, burstOffset).allowed
    ensures Stored(tat, now, debt, burstOffset) == tat
    ensures var v := Report(Decide(tat, now, debt, burstOffset), interval);
            && v.retryAfter > 0.0
            && (Decide(tat, later, debt, burstOffset).allowed <==> cost <= burst && later >= now + v.retryAfter)
  {
    ScaledCompare(cost, burst, interval, debt, burstOffset);
    RetryLinear(tat, now, debt, burstOffset, later);
    DeniedReport(tat, now, debt, burstOffset, interval);
  }

  lemma DeniedReport(tat: Option<real>, now: real, debt: real, burstOffset: real, interval: real)
    requires interval > 0.0 && !Decide(tat, now, debt, burstOffset).allowed
    ensures var d := Decide(tat, now, debt, burstOffset);
            Report(d, interval).retryAfter == -d.slack > 0.0 && Stored(tat, now, debt, burstOffset) == tat
  {
  }

  lemma ScaledCompare(x: real, y: real, k: real, kx: real, ky: real)
    requires k > 0.0 && kx == k * x && ky == y * k
    ensures kx <= ky <==> x <= y
  {
    ProductSign(y - x, k);
    assert (y - x) * k == ky - kx;
  }

  lemma RetryLinear(tat: Option<real>, now: real, debt: real, burstOffset: real, later: real)
    requires now <= later && !Decide(tat, now, debt, burstOffset).allowed
    ensures Decide(tat, later, debt, burstOffset).allowed <==>
            debt <= burstOffset && later >= now - Decide(tat, now, debt, burstOffset).slack
  {
  }

  /** From `now + resetAfter` on, a key is served as if it had never been used. */
  lemma ResetIsFresh(tat: Option<real>, now: real, burstOffset: real, debt: real, later: real, debt': real)
    requires debt >= 0.0
    requires later >= now + Decide(tat, now, debt, burstOffset).resetAfter
    ensures var tat' := Stored(tat, now, debt, burstOffset);
            && Decide(tat', later, debt', burstOffset) == Decide(None, later, debt', burstOffset)
            && NewTat(tat', later, debt') == NewTat(None, later, debt')
  {
  }

  /** A denied caller that waits exactly the reported nanoseconds is let in only if no fraction was cut off;
      with one nanosecond more it is, as far as its cost allows. */
  lemma RetryInNanoseconds(tat: Option<real>, now: real, debt: real, burstOffset: real, ns: int)
    requires !Decide(tat, now, debt, burstOffset).allowed
    requires ns == Truncate(-Decide(tat, now, debt, burstOffset).slack * NANOS)
    ensures ns >= 0
    ensures Decide(tat, now + ns as real / NANOS, debt, burstOffset).allowed <==>
            debt <= burstOffset && ns as real == -Decide(tat, now, debt, burstOffset).slack * NANOS
    ensures Decide(tat, now + (ns + 1) as real / NANOS, debt, burstOffset).allowed <==> debt <= burstOffset
  {
    WholeNanos(-Decide(tat, now, debt, burstOffset).slack, ns);
    RetryLinear(tat, now, debt, burstOffset, now + ns as real / NANOS);
    RetryLinear(tat, now, debt, burstOffset, now + (ns + 1) as real / NANOS);
  }

  /** Two takes of a token at three a second: the second has to wait a third of a second, is told to wait
      333333333 nanoseconds, and is denied again after them. */
  lemma RetryTooShort()
    ensures var third := 1.0 / 3.0;
            var tat := Stored(None, 0.0, third, third);
            var v := Report(Decide(tat, 0.0, third, third), third);
            && tat == Some(third) && !v.allowed && v.retryAfter == third
            && InWholeUnits(v, 1).retryAfter == 333_333_333
            && !Decide(tat, 333_333_333.0 / NANOS, third, third).allowed
            && Decide(tat, 333_333_334.0 / NANOS, third, third).allowed
  {
  }

  lemma WholeNanos(wait: real, ns: int)
    requires wait >= 0.0 && ns == Truncate(wait * NANOS)
    ensures ns >= 0 && ns as real / NANOS <= wait <= (ns + 1) as real / NANOS
    ensures ns as real / NANOS == wait <==> ns as real == wait * NANOS
  {
  }

  /** The whole number of tokens reported as remaining is exactly what one more take at the same time can
      have. */
  lemma RemainingIsTight(tat: Option<real>, now: real, interval: real, debt: real, burstOffset: real, more: nat)
    requires interval > 0.0 && debt >= 0.0 && Decide(tat, now, debt, burstOffset).allowed
    ensures var left := Report(Decide(tat, now, debt, burstOffset), interval).remaining;
            Decide(Stored(tat, now, debt, burstOffset), now, interval * more as real, burstOffset).allowed <==> more <= Truncate(left)
  {
    var d := Decide(tat, now, debt, burstOffset);
    LevelAfterTake(tat, now, debt, burstOffset);
    TokensFromSeconds(interval, more as real, d.slack);
    QuotientSign(d.slack, interval);
    LeftOver(Stored(tat, now, debt, burstOffset), now, interval * more as real, burstOffset);
  }

  /** Whether one more take, of some number of tokens, succeeds. */
  predicate Succeeds(tat: Option<real>, now: real, interval: real, burstOffset: real, more: nat) {
    Decide(tat, now, interval * more as real, burstOffset).allowed
  }

  ghost predicate MoreIff(tat: Option<real>, now: real, interval: real, burstOffset: real, remaining: int) {
    forall more: nat :: Succeeds(tat, now, interval, burstOffset, more) <==> more <= remaining
  }

  /** What is reported of an allowed take: one more take of some tokens at that time succeeds if and only if they are
      no more than `remaining`. */
  lemma TakenResult(tat: Option<real>, now: real, interval: real, debt: real, burstOffset: real, burst: int)
    requires interval > 0.0 && debt >= 0.0
    ensures var d := Decide(tat, now, debt, burstOffset);
            var r := InWholeUnits(Report(d, interval), burst);
            && r.limit == burst && r.allowed == d.allowed
            && (d.allowed ==> r.retryAfter == 0 && MoreIff(Stored(tat, now, debt, burstOffset), now, interval, burstOffset, r.remaining))
            && (!d.allowed ==> r.remaining == 0)
  {
    if Decide(tat, now, debt, burstOffset).allowed {
      forall more: nat
        ensures Succeeds(Stored(tat, now, debt, burstOffset), now, interval, burstOffset, more)
            <==> more <= InWholeUnits(Report(Decide(tat, now, debt, burstOffset), interval), burst).remaining
      {
        RemainingIsTight(tat, now, interval, debt, burstOffset, more);
      }
    }
  }

  /** What is reported of a denied take: the largest whole number of nanoseconds that is not past the exact time to
      wait, which `RetryIsTight` is about. The reset time is a whole number of seconds, allowed or not, and
      nothing of it is cut off. */
  lemma ReportedTimes(tat: Option<real>, now: real, interval: real, debt: real, burstOffset: real, burst: int)
    requires interval > 0.0
    ensures var d := Decide(tat, now, debt, burstOffset);
            var r := InWholeUnits(Report(d, interval), burst);
            && (!d.allowed ==> 0.0 <= r.retryAfter as real / NANOS <= -d.slack < (r.retryAfter + 1) as real / NANOS)
            && r.resetAfter as real / NANOS == d.resetAfter
  {
    var d := Decide(tat, now, debt, burstOffset);
    WholeSeconds(Ceil(NewTat(tat, now, debt) - now));
    if !d.allowed {
      NanosOf(-d.slack, Truncate(-d.slack * NANOS));
    }
  }

  lemma WholeSeconds(n: int)
    ensures Truncate(n as real * NANOS) as real / NANOS == n as real
  {
    ScaledFloor(n, 1000000000);
  }

  lemma ScaledFloor(n: int, k: int)
    ensures (n as real * k as real).Floor == n * k && (-(n as real * k as real)).Floor == -(n * k)
  {
    assert n as real * k as real == (n * k) as real;
  }

  lemma NanosOf(wait: real, ns: int)
    requires wait >= 0.0 && ns == Truncate(wait * NANOS)
    ensures 0.0 <= ns as real / NANOS <= wait < (ns + 1) as real / NANOS
  {
  }

  /** A take is decided as if the key had never been used. */
  predicate AsUnused(tat: Option<real>, now: real, debt: real, burstOffset: real) {
    Decide(tat, now, debt, burstOffset) == Decide(None, now, debt, burstOffset)
  }

  /** The reset time is the least whole number of seconds after which the key is as good as unused: after an allowed
      take it is so after k seconds if and only if k is no less. A denied take, which leaves the key alone,
      reports what it would be had the take been allowed. */
  lemma ResetIsTight(tat: Option<real>, now: real, debt: real, burstOffset: real, k: int, debt': real)
    requires debt >= 0.0 && k >= 0
    ensures var d := Decide(tat, now, debt, burstOffset);
            && (k as real >= d.resetAfter <==> now + k as real >= NewTat(tat, now, debt))
            && (d.allowed ==>
                  (AsUnused(Stored(tat, now, debt, burstOffset), now + k as real, debt', burstOffset) <==> k as real >= d.resetAfter))
  {
    CeilIsLeast(NewTat(tat, now, debt) - now, k);
    FreshIff(NewTat(tat, now, debt), now + k as real, debt', burstOffset);
  }

  lemma CeilIsLeast(x: real, k: int)
    ensures k >= Ceil(x) <==> k as real >= x
  {
  }

  lemma FreshIff(tat: real, now: real, debt: real, burstOffset: real)
    ensures Decide(Some(tat), now, debt, burstOffset) == Decide(None, now, debt, burstOffset) <==> tat <= now
  {
  }

  lemma LeftOver(tat: Option<real>, now: real, debt: real, burstOffset: real)
    requires debt >= 0.0
    ensures Decide(tat, now, debt, burstOffset).allowed <==> Credit(tat, now, burstOffset) >= debt
  {
  }

  lemma LevelAfterTake(tat: Option<real>, now: real, debt: real, burstOffset: real)
    requires debt >= 0.0 && Decide(tat, now, debt, burstOffset).allowed
    ensures Credit(Stored(tat, now, debt, burstOffset), now, burstOffset) == Decide(tat, now, debt, burstOffset).slack
  {
  }

  // ---------------------------------------------------------------------------------------------
  // The Redis form: the same decision, but an allowed key expires after `resetAfter`.

  datatype Entry = Entry(tat: real, expires: real)

  function Live(e: Option<Entry>, now: real): Option<real> {
    if e.Some? && now < e.value.expires then Some(e.value.tat) else None
  }

  function RedisStored(e: Option<Entry>, now: real, debt: real, burstOffset: real): Option<Entry> {
    var d := Decide(Live(e, now), now, debt, burstOffset);
    if d.allowed && d.resetAfter > 0.0 then Some(Entry(NewTat(Live(e, now), now, debt), now + d.resetAfter)) else e
  }

  function RedisRun(e: Option<Entry>, burstOffset: real, reqs: seq<Request>): (ds: seq<Decision>)
    ensures |ds| == |reqs|
    decreases |reqs|
  {
    if reqs == [] then []
    else [Decide(Live(e, reqs[0].now), reqs[0].now, reqs[0].debt, burstOffset)] +
         RedisRun(RedisStored(e, reqs[0].now, reqs[0].debt, burstOffset), burstOffset, reqs[1..])
  }

  function Reach(tat: Option<real>, now: real): real {
    if tat.Some? then Max(tat.value, now) else now
  }

  /** A Redis entry and a stored arrival time that no take from `now` on can tell apart. */
  ghost predicate Agree(e: Option<Entry>, tat: Option<real>, now: real) {
    && Reach(Live(e, now), now) == Reach(tat, now)
    && (e.Some? ==> e.value.tat <= e.value.expires)
  }

  lemma RedisStep(e: Option<Entry>, tat: Option<real>, now: real, debt: real, burstOffset: real, later: real)
    requires debt >= 0.0 && now <= later && Agree(e, tat, now)
    ensures Decide(Live(e, now), now, debt, burstOffset) == Decide(tat, now, debt, burstOffset)
    ensures Agree(RedisStored(e, now, debt, burstOffset), Stored(tat, now, debt, burstOffset), later)
  {
  }

  ghost predicate SameKey(reqs: seq<Request>, key: string) {
    forall i :: 0 <= i < |reqs| ==> reqs[i].key == key
  }

  /** On one clock, the Redis form and the in-memory form give the same decisions in every run:
      dropping an expired key loses nothing. */
  lemma {:induction false} RedisAgrees(e: Option<Entry>, data: map<string, real>, burstOffset: real, reqs: seq<Request>, key: string)
    requires Ordered(reqs) && NonNegative(reqs) && SameKey(reqs, key)
    requires reqs != [] ==> Agree(e, Lookup(data, key), reqs[0].now)
    ensures RedisRun(e, burstOffset, reqs) == Run(data, burstOffset, reqs)
    decreases |reqs|
  {
    if reqs != [] {
      var r := reqs[0];
      RedisStep(e, Lookup(data, key), r.now, r.debt, burstOffset, if |reqs| > 1 then reqs[1].now else r.now);
      RedisAgrees(RedisStored(e, r.now, r.debt, burstOffset), After(data, r, burstOffset), burstOffset, reqs[1..], key);
    }
  }

  // ---------------------------------------------------------------------------------------------
  // The clock of the in-memory store.

  const BASE_T := 1577836800

  /** What the store computes from a wall clock of `us` microseconds since the epoch. The fraction
      subtracts whole seconds from microseconds, so whole seconds are counted twice. */
  function Clock(us: int): real {
    var sec := us / 1_000_000;
    (sec - BASE_T) as real + (us - sec) as real / 1000000.0
  }

  /** Within one wall-clock second the store's clock runs true; across each second boundary it
      gains almost a whole second. It never runs backwards. */
  lemma ClockGains(u: int, v: int)
    requires u <= v
    ensures Clock(v) - Clock(u)
         == (v - u) as real / 1000000.0 + (v / 1_000_000 - u / 1_000_000) as real * 0.999999
    ensures u / 1_000_000 <= v / 1_000_000
    ensures Clock(v) - Clock(u) == (v - u) as real / 1000000.0 <==> u / 1_000_000 == v / 1_000_000
  {
  }

  /** In wall-clock time the window bound holds within one second ... */
  lemma WallBoundWithinSecond(c: Config, data: map<string, real>, reqs: seq<Request>, key: string, u: int, v: int)
    requires c.Valid() && u <= v && NonNegative(reqs) && Priced(reqs, c.Interval())
    requires u / 1_000_000 == v / 1_000_000
    ensures AllowedCost(reqs, Run(data, c.BurstOffset(), reqs), key, Clock(u), Clock(v))
         <= c.burst as real + (v - u) as real / 1000000.0 / c.Interval()
  {
    ClockGains(u, v);
    WindowBound(c, data, reqs, key, Clock(u), Clock(v));
  }

  /** A clock that gains on the wall clock between two readings breaks the bound. */
  lemma GainBreaksBound(a: real, b: real, wall: real) returns (c: Config, reqs: seq<Request>)
    requires a < b && wall < b - a
    ensures c.Valid() && NonNegative(reqs) && Priced(reqs, c.Interval())
    ensures forall i :: 0 <= i < |reqs| ==> reqs[i].now == if i == 0 then a else b
    ensures AllowedCost(reqs, Run(map[], c.BurstOffset(), reqs), "k", a, b) > c.burst as real + wall / c.Interval()
  {
    var interval := b - a;
    c := Config(1, interval, 1);
    reqs := [Request("k", a, 1.0, interval), Request("k", b, 1.0, interval)];
    TwoTakes(a, interval);
    RatioBelowOne(wall, interval);
  }

  /** ... and fails across every second boundary: for any two instants in different seconds some
      configuration lets two takes through where the bound is less than two. */
  lemma WallBoundFailsAcrossSeconds(u: int, v: int) returns (c: Config, reqs: seq<Request>)
    requires u < v && u / 1_000_000 != v / 1_000_000
    ensures c.Valid() && NonNegative(reqs) && Priced(reqs, c.Interval())
    ensures forall i :: 0 <= i < |reqs| ==> reqs[i].now == Clock(if i == 0 then u else v)
    ensures AllowedCost(reqs, Run(map[], c.BurstOffset(), reqs), "k", Clock(u), Clock(v))
          > c.burst as real + (v - u) as real / 1000000.0 / c.Interval()
  {
    ClockGains(u, v);
    c, reqs := GainBreaksBound(Clock(u), Clock(v), (v - u) as real / 1000000.0);
  }

  lemma RatioBelowOne(x: real, y: real)
    requires x < y && 0.0 < y
    ensures x / y < 1.0
  {
    QuotientSign(x, y);
    ProductSign(1.0 - x / y, y);
  }

  /** Two takes one interval apart both pass a limiter with a burst of one. */
  lemma TwoTakes(start: real, interval: real)
    requires interval > 0.0
    ensures var reqs := [Request("k", start, 1.0, interval), Request("k", start + interval, 1.0, interval)];
            AllowedCost(reqs, Run(map[], interval, reqs), "k", start, start + interval) == 2.0
  {
    var reqs := [Request("k", start, 1.0, interval), Request("k", start + interval, 1.0, interval)];
    assert reqs[1..] == [reqs[1]];
    var ds := Run(map[], interval, reqs);
    assert ds[1..] == Run(After(map[], reqs[0], interval), interval, [reqs[1]]);
    assert AllowedCost(reqs[1..], ds[1..], "k", start, start + interval) == 1.0;
  }
}
