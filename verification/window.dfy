/**
 The sliding window of engine/internal/metrics: a circular array of one-second buckets that stands
 for a step function of time.

 Times are whole seconds (the code truncates to seconds before anything else) counted so that 0 is
 the zero time, which the code uses for "never updated".
 */
module Window {
  import opened Common

  datatype Sample = Sample(at: int, v: real)

  /** The value of the metric during second `s`: the sum of all samples added by then. */
  function StepAt(history: seq<Sample>, s: int): real {
    if history == [] then 0.0
    else StepAt(history[..|history| - 1], s) +
         (if history[|history| - 1].at <= s then history[|history| - 1].v else 0.0)
  }

  /** The sum of the step function over the `n` seconds from `lo` on. */
  function SumOver(history: seq<Sample>, lo: int, n: nat): real {
    if n == 0 then 0.0 else SumOver(history, lo, n - 1) + StepAt(history, lo + n - 1)
  }

  lemma StepAppend(history: seq<Sample>, x: Sample)
    ensures forall s :: StepAt(history + [x], s) == StepAt(history, s) + (if x.at <= s then x.v else 0.0)
  {
    assert (history + [x])[..|history|] == history;
  }

  ghost predicate Before(history: seq<Sample>, t: int) {
    forall i :: 0 <= i < |history| ==> history[i].at <= t
  }

  /** After the last sample the step function stays level. */
  lemma {:induction false} StepLevel(history: seq<Sample>, t: int, s: int)
    requires Before(history, t) && t <= s
    ensures StepAt(history, s) == StepAt(history, t)
  {
    if history != [] {
      StepLevel(history[..|history| - 1], t, s);
    }
  }

  lemma LevelFrom(history: seq<Sample>, t: int)
    requires Before(history, t)
    ensures forall s :: t <= s ==> StepAt(history, s) == StepAt(history, t)
  {
    forall s | t <= s ensures StepAt(history, s) == StepAt(history, t) {
      StepLevel(history, t, s);
    }
  }

  lemma {:induction false} SumLevel(history: seq<Sample>, t: int, lo: int, n: nat)
    requires Before(history, t) && t <= lo
    ensures SumOver(history, lo, n) == StepAt(history, t) * n as real
  {
    if n > 0 {
      SumLevel(history, t, lo, n - 1);
      StepLevel(history, t, lo + n - 1);
    }
  }

  lemma {:induction false} SumSplit(history: seq<Sample>, lo: int, n: nat, m: nat)
    ensures SumOver(history, lo, n + m) == SumOver(history, lo, n) + SumOver(history, lo + n, m)
  {
    if m > 0 {
      SumSplit(history, lo, n, m - 1);
    }
  }

  /** The second that bucket `i` stands for, when bucket `lastIndex` stands for `last`. */
  function SecondOf(n: nat, lastIndex: int, last: int, i: int): int {
    last - lastIndex + i - (if i <= lastIndex then 0 else n)
  }

  /** The circular array agrees with the step function: going back k buckets from `lastIndex`, around
      the end of the array if need be, goes back k seconds from `last`. */
  ghost predicate Agrees(b: seq<real>, lastIndex: int, last: int, history: seq<Sample>) {
    && 0 <= lastIndex < |b|
    && Before(history, last)
    && forall i :: 0 <= i < |b| ==> b[i] == StepAt(history, SecondOf(|b|, lastIndex, last, i))
  }

  lemma AgreesBackwards(b: seq<real>, lastIndex: int, last: int, history: seq<Sample>, k: nat)
    requires Agrees(b, lastIndex, last, history) && k < |b|
    ensures b[(lastIndex - k) % |b|] == StepAt(history, last - k)
  {
    var i := if k <= lastIndex then lastIndex - k else lastIndex - k + |b|;
    ModUnique(lastIndex - k, |b|, if k <= lastIndex then 0 else -1, i);
    assert SecondOf(|b|, lastIndex, last, i) == last - k;
  }

  /** Moving on to second `t`: the buckets skipped over keep the last value, and the new one gets
      the sample on top. */
  lemma Advance(b: seq<real>, lastIndex: int, last: int, history: seq<Sample>, x: Sample, b': seq<real>, idx: int)
    requires Agrees(b, lastIndex, last, history) && |b'| == |b| && 0 <= idx < |b| && x.at > last
    requires b'[idx] == b[lastIndex] + x.v
    requires forall i :: 0 <= i < |b| && i != idx ==>
      b'[i] == if SecondOf(|b|, idx, x.at, i) >= last then b[lastIndex] else b[i]
    requires forall i :: 0 <= i < |b| && i != idx && SecondOf(|b|, idx, x.at, i) < last ==>
      SecondOf(|b|, idx, x.at, i) == SecondOf(|b|, lastIndex, last, i)
    ensures Agrees(b', idx, x.at, history + [x])
  {
    LevelFrom(history, last);
    StepAppend(history, x);
    assert b[lastIndex] == StepAt(history, SecondOf(|b|, lastIndex, last, lastIndex));
  }

  class WindowBucket {
    const buckets: array<real>
    var lastIndex: nat
    var lastUpdatedAt: int

    /** The samples accepted so far. */
    ghost var history: seq<Sample>

    ghost predicate Valid()
      reads this, buckets
    {
      && (buckets.Length > 0 ==> Agrees(buckets[..], lastIndex, lastUpdatedAt, history))
      && (lastUpdatedAt == 0 ==> lastIndex == 0 && history == [])
      && (buckets.Length == 0 ==> lastUpdatedAt == 0)
    }

    /** One bucket for each whole second of the window. */
    constructor (nanos: nat)
      ensures Valid() && fresh(buckets)
      ensures buckets.Length == nanos / 1_000_000_000 && lastUpdatedAt == 0 && history == []
    {
      buckets := new real[nanos / 1_000_000_000](_ => 0.0);
      lastIndex := 0;
      lastUpdatedAt := 0;
      history := [];
    }

    /** Sets the buckets from `lo` up to `hi` to `v`. */
    method Fill(lo: nat, hi: nat, v: real)
      requires lo <= buckets.Length && hi <= buckets.Length
      modifies buckets
      ensures forall j :: 0 <= j < buckets.Length ==> buckets[j] == if lo <= j < hi then v else old(buckets[j])
    {
      var i := lo;
      while i < hi
        invariant lo <= i
        invariant forall j :: 0 <= j < buckets.Length ==>
          buckets[j] == if lo <= j < i && j < hi then v else old(buckets[j])
      {
        buckets[i] := v;
        i := i + 1;
      }
    }

    /** Samples are accepted unless they are older than the last one; an accepted sample extends the
        step function, and the array keeps agreeing with it. Without buckets the first sample is a crash. */
    method Add(t: int, v: real) returns (ok: bool)
      requires Valid() && t > 0
      modifies this, buckets
      ensures ok <==> buckets.Length > 0
      ensures ok ==> Valid()
      ensures ok && t < old(lastUpdatedAt) ==> history == old(history) && lastUpdatedAt == old(lastUpdatedAt)
      ensures ok && t >= old(lastUpdatedAt) ==> history == old(history) + [Sample(t, v)] && lastUpdatedAt == t
    {
      ok := true;
      if lastUpdatedAt == 0 {
        if buckets.Length == 0 {
          return false;
        }
        StepAppend(history, Sample(t, v));
        lastUpdatedAt := t;
        buckets[0] := v;
        history := history + [Sample(t, v)];
        return;
      }
      if t < lastUpdatedAt {
        return;
      }
      if t == lastUpdatedAt {
        StepAppend(history, Sample(t, v));
        buckets[lastIndex] := buckets[lastIndex] + v;
        history := history + [Sample(t, v)];
        return;
      }

      MoveOn(t, v);
    }

    /** A sample of a later second: the buckets skipped over get the last value. */
    method MoveOn(t: int, v: real)
      requires Valid() && buckets.Length > 0 && t > 0 && lastUpdatedAt != 0 && lastUpdatedAt < t
      modifies this, buckets
      ensures Valid() && history == old(history) + [Sample(t, v)] && lastUpdatedAt == t
    {
      var d := t - lastUpdatedAt;
      var lastVal := buckets[lastIndex];
      var bucketNum := buckets.Length;
      ghost var b := buckets[..];

      if d > bucketNum {
        buckets[0] := lastVal + v;
        Fill(1, bucketNum, lastVal);
        Advance(b, lastIndex, lastUpdatedAt, history, Sample(t, v), buckets[..], 0);
        lastIndex := 0;
        lastUpdatedAt := t;
        history := history + [Sample(t, v)];
        return;
      }

      var idx := Wrapped(lastIndex, d, bucketNum);
      if idx > lastIndex {
        Fill(lastIndex + 1, idx, lastVal);
      } else {
        Fill(lastIndex + 1, bucketNum, lastVal);
        Fill(0, idx, lastVal);
      }
      buckets[idx] := lastVal + v;
      Advance(b, lastIndex, lastUpdatedAt, history, Sample(t, v), buckets[..], idx);
      lastIndex := idx;
      lastUpdatedAt := t;
      history := history + [Sample(t, v)];
    }

    /** The average is exactly the mean of the step function over the window: the `n` seconds before
        `t`, or the `n` seconds up to `t` when the last sample arrived during `t` itself. If the clock has
        been set back since the last sample, it is a crash or some other number. */
    method Average(t: int) returns (avg: Option<real>)
      requires Valid()
      ensures avg == None <==> lastUpdatedAt != 0 && TooEarly(buckets.Length, lastIndex, lastUpdatedAt - t)
      ensures lastUpdatedAt == 0 ==> avg == Some(0.0)
      ensures lastUpdatedAt != 0 && t >= lastUpdatedAt ==>
        avg.Some? && avg.value * buckets.Length as real == WindowSum(history, lastUpdatedAt, buckets.Length, t)
      ensures lastUpdatedAt != 0 && t < lastUpdatedAt && avg.Some? ==>
        avg.value * buckets.Length as real == EarlySum(history, lastIndex, lastUpdatedAt, buckets.Length, lastUpdatedAt - t)
    {
      if lastUpdatedAt == 0 {
        return Some(0.0);
      }
      LastBucket(buckets[..], lastIndex, lastUpdatedAt, history);
      var winStartAt := t - buckets.Length;
      if lastUpdatedAt <= winStartAt {
        SumLevel(history, lastUpdatedAt, winStartAt, buckets.Length);
        return Some(buckets[lastIndex]);
      }
      var sum;
      if t >= lastUpdatedAt {
        sum := SumWindow(t);
      } else {
        var early := SumEarly(t);
        if early.None? {
          return None;
        }
        sum := early.value;
      }
      var q := Quotient(sum, buckets.Length);
      avg := Some(q);
    }

    /** The sum over a window that reaches back beyond the last sample. The code does this inline. */
    method SumWindow(t: int) returns (sum: real)
      requires Valid() && buckets.Length > 0 && lastUpdatedAt <= t < lastUpdatedAt + buckets.Length
      ensures sum == WindowSum(history, lastUpdatedAt, buckets.Length, t)
    {
      var bucketNum := buckets.Length;
      var lastVal := buckets[lastIndex];
      LastBucket(buckets[..], lastIndex, lastUpdatedAt, history);
      var d := t - lastUpdatedAt;
      var idx := Wrapped(lastIndex, d, bucketNum);
      var tail := SumFrom(idx);
      LevelAndTail(history, lastUpdatedAt, bucketNum, d);
      sum := lastVal * d as real + tail;
    }

    /** The same arithmetic when `t` lies before the last sample; the remainder of a negative number is
        negative or zero, and a negative index is a crash. */
    method SumEarly(t: int) returns (sum: Option<real>)
      requires Valid() && buckets.Length > 0 && t < lastUpdatedAt
      ensures sum == None <==> TooEarly(buckets.Length, lastIndex, lastUpdatedAt - t)
      ensures sum.Some? ==> sum.value == EarlySum(history, lastIndex, lastUpdatedAt, buckets.Length, lastUpdatedAt - t)
    {
      var bucketNum := buckets.Length;
      var lastVal := buckets[lastIndex];
      LastBucket(buckets[..], lastIndex, lastUpdatedAt, history);
      var d := t - lastUpdatedAt;
      var idx := TruncatedRemainder(lastIndex + d, bucketNum);
      if idx < 0 {
        return None;
      }
      var tail := SumFrom(idx);
      Negated(lastVal, lastUpdatedAt - t);
      sum := Some(lastVal * d as real + tail);
    }

    /** Adds up the buckets from `idx` cyclically up to `lastIndex`. The code does this inline. */
    method SumFrom(idx: nat) returns (sum: real)
      requires Valid() && idx < buckets.Length
      ensures sum == TailFrom(history, lastIndex, lastUpdatedAt, buckets.Length, idx)
    {
      var bucketNum := buckets.Length;
      sum := 0.0;
      if idx < lastIndex {
        ghost var lo := lastUpdatedAt - lastIndex + idx;
        for i := idx to lastIndex
          invariant sum == SumOver(history, lo, i - idx)
        {
          assert buckets[..][i] == StepAt(history, SecondOf(bucketNum, lastIndex, lastUpdatedAt, i));
          sum := sum + buckets[i];
        }
      } else {
        ghost var d := idx - lastIndex;
        ghost var lo := lastUpdatedAt + d - bucketNum + (if d == 0 then 1 else 0);
        for i := idx to bucketNum
          invariant sum == Tail(history, lastUpdatedAt, lo, i - idx, d)
        {
          assert buckets[..][i] == StepAt(history, SecondOf(bucketNum, lastIndex, lastUpdatedAt, i));
          sum := sum + buckets[i];
        }
        for i := 0 to lastIndex
          invariant sum == Tail(history, lastUpdatedAt, lo, bucketNum - idx + i, d)
        {
          assert buckets[..][i] == StepAt(history, SecondOf(bucketNum, lastIndex, lastUpdatedAt, i));
          sum := sum + buckets[i];
        }
      }
    }
  }

  /** What the loops add up from bucket `idx` on: the seconds it stands for up to the last sample's, without
      that second unless they start with it. */
  function TailFrom(history: seq<Sample>, lastIndex: nat, last: int, n: nat, idx: nat): real
    requires idx < n && lastIndex < n
  {
    if idx < lastIndex then SumOver(history, last - lastIndex + idx, lastIndex - idx)
    else if idx == lastIndex then SumOver(history, last - n + 1, n)
    else SumOver(history, last - lastIndex + idx - n, n - idx + lastIndex)
  }

  /** Whether an average `k` seconds before the last sample is a crash: it is if it reaches back beyond bucket
      zero, unless by a multiple of the window. */
  predicate TooEarly(n: nat, lastIndex: nat, k: int) {
    n > 0 && k > lastIndex && (k - lastIndex) % n != 0
  }

  /** What an average `k` seconds before the last sample adds up: the seconds since, each less the last
      value, as far as bucket zero. */
  function EarlySum(history: seq<Sample>, lastIndex: nat, last: int, n: nat, k: nat): real
    requires lastIndex < n && k > 0
  {
    (if k <= lastIndex then SumOver(history, last - k, k)
     else if lastIndex > 0 then SumOver(history, last - lastIndex, lastIndex)
     else SumOver(history, last - n + 1, n)) - StepAt(history, last) * k as real
  }

  /** The first `k` buckets of the window in the order the code adds them: oldest first, except that
      when the window ends with the last sample's second that bucket comes first. */
  ghost function Tail(history: seq<Sample>, last: int, lo: int, k: nat, d: nat): real {
    if d == 0 && k > 0 then StepAt(history, last) + SumOver(history, lo, k - 1) else SumOver(history, lo, k)
  }

  /** The step function summed over the window of an average at `t`. */
  function WindowSum(history: seq<Sample>, last: int, n: nat, t: int): real {
    SumOver(history, if t > last then t - n else t - n + 1, n)
  }

  lemma LastBucket(b: seq<real>, lastIndex: int, last: int, history: seq<Sample>)
    requires Agrees(b, lastIndex, last, history)
    ensures b[lastIndex] == StepAt(history, last)
  {
    assert b[lastIndex] == StepAt(history, SecondOf(|b|, lastIndex, last, lastIndex));
  }

  /** The level part after the last sample and the part before it make up the window. */
  lemma LevelAndTail(history: seq<Sample>, last: int, n: nat, d: nat)
    requires Before(history, last) && d < n
    ensures WindowSum(history, last, n, last + d)
         == StepAt(history, last) * d as real
            + (if d == 0 then SumOver(history, last - n + 1, n) else SumOver(history, last + d - n, n - d))
  {
    if d > 0 {
      SumLevel(history, last, last, d);
      SumSplit(history, last + d - n, n - d, d);
    }
  }

  method Quotient(sum: real, n: nat) returns (q: real)
    requires n > 0
    ensures q * n as real == sum
  {
    q := sum / n as real;
  }

  lemma Negated(x: real, k: int)
    ensures x * (-k) as real == -(x * k as real)
  {
  }

  /** The remainder of truncating division, with the sign of the dividend. */
  method TruncatedRemainder(a: int, n: nat) returns (r: int)
    requires n > 0
    ensures 0 <= a < n ==> r == a
    ensures a < 0 && (-a) % n == 0 ==> r == 0
    ensures a < 0 && (-a) % n != 0 ==> r < 0
  {
    if a >= 0 {
      r := a % n;
      if a < n {
        ModUnique(a, n, 0, a);
      }
    } else {
      r := -((-a) % n);
    }
  }

  method Wrapped(i: nat, d: nat, n: nat) returns (r: nat)
    requires i < n && d <= n
    ensures r == if i + d < n then i + d else i + d - n
  {
    r := (i + d) % n;
    ModUnique(i + d, n, if i + d < n then 0 else 1, if i + d < n then i + d else i + d - n);
  }
}
