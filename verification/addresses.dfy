/**
 The addresses of a runtime (engine/internal/runtime/runtime.go): round-robin selection with a
 blacklist whose entries expire. Times are nanoseconds of a clock that does not run backwards.
 */
module Addresses {
  import opened Common

  type Address = string
  type Time = int

  const BLACKLIST_DURATION: Time := 10_000_000_000

  // ---------------------------------------------------------------------------------------------
  // The order of strings, and the sorted list of a set of them.

  predicate Leq(a: string, b: string) {
    a == "" || (b != "" && (a[0] < b[0] || (a[0] == b[0] && Leq(a[1..], b[1..]))))
  }

  lemma {:induction false} LeqAntisymmetric(a: string, b: string)
    requires Leq(a, b) && Leq(b, a)
    ensures a == b
  {
    if a != "" {
      LeqAntisymmetric(a[1..], b[1..]);
      assert a == [a[0]] + a[1..] && b == [b[0]] + b[1..];
    }
  }

  lemma {:induction false} LeqTransitive(a: string, b: string, c: string)
    requires Leq(a, b) && Leq(b, c)
    ensures Leq(a, c)
  {
    if a != "" && a[0] == b[0] == c[0] {
      LeqTransitive(a[1..], b[1..], c[1..]);
    }
  }

  lemma {:induction false} LeqTotal(a: string, b: string)
    ensures Leq(a, b) || Leq(b, a)
  {
    if a != "" && b != "" && a[0] == b[0] {
      LeqTotal(a[1..], b[1..]);
    }
  }

  ghost predicate Least(s: set<Address>, m: Address) {
    m in s && forall a :: a in s ==> Leq(m, a)
  }

  lemma {:induction false} LeastExists(s: set<Address>)
    requires s != {}
    ensures exists m :: Least(s, m)
  {
    var a :| a in s;
    if s == {a} {
      LeqTotal(a, a);
      assert Least(s, a);
    } else {
      LeastExists(s - {a});
      var m :| Least(s - {a}, m);
      LeqTotal(a, m);
      if Leq(m, a) {
        assert Least(s, m);
      } else {
        forall x | x in s ensures Leq(a, x) {
          LeqTotal(a, a);
          if x != a {
            LeqTransitive(a, m, x);
          }
        }
        assert Least(s, a);
      }
    }
  }

  ghost function Minimum(s: set<Address>): (m: Address)
    requires s != {}
    ensures Least(s, m)
  {
    LeastExists(s);
    var m :| Least(s, m);
    m
  }

  predicate Increasing(r: seq<Address>) {
    forall i, j :: 0 <= i < j < |r| ==> Below(r, i, j)
  }

  predicate Below(r: seq<Address>, i: nat, j: nat)
    requires i < |r| && j < |r|
  {
    Leq(r[i], r[j]) && r[i] != r[j]
  }

  ghost predicate Lists(r: seq<Address>, s: set<Address>) {
    |r| == |s| && forall a :: a in s <==> a in r
  }

  /** The elements of a set in increasing order. */
  ghost function Sorted(s: set<Address>): (r: seq<Address>)
    ensures Lists(r, s) && Increasing(r)
  {
    if s == {} then []
    else
      var m := Minimum(s);
      var rest := Sorted(s - {m});
      PrependLeast(s, m, rest);
      [m] + rest
  }

  lemma PrependLeast(s: set<Address>, m: Address, rest: seq<Address>)
    requires Least(s, m) && Lists(rest, s - {m}) && Increasing(rest)
    ensures Lists([m] + rest, s) && Increasing([m] + rest)
  {
    var r := [m] + rest;
    forall i, j | 0 <= i < j < |r| ensures Below(r, i, j) {
      if i == 0 {
        assert rest[j - 1] in rest;
      } else {
        assert Below(rest, i - 1, j - 1);
      }
    }
  }

  function ToSet(xs: seq<Address>): set<Address> {
    if xs == [] then {} else ToSet(xs[..|xs| - 1]) + {xs[|xs| - 1]}
  }

  lemma {:induction false} InToSet(xs: seq<Address>, a: Address)
    ensures a in ToSet(xs) <==> a in xs
  {
    if xs != [] {
      InToSet(xs[..|xs| - 1], a);
      assert xs == xs[..|xs| - 1] + [xs[|xs| - 1]];
    }
  }

  // ---------------------------------------------------------------------------------------------
  // Selection.

  datatype State = State(addresses: set<Address>, blacklist: map<Address, Time>, nextTarget: nat)

  const INIT := State({}, map[], 0)

  function Purge(blacklist: map<Address, Time>, now: Time): map<Address, Time> {
    map a | a in blacklist && now - blacklist[a] < BLACKLIST_DURATION :: blacklist[a]
  }

  function Available(s: State, now: Time): set<Address> {
    s.addresses - Purge(s.blacklist, now).Keys
  }

  function Pick(addrs: seq<Address>, target: nat): Option<Address> {
    if |addrs| == 0 then None else Some(addrs[target % |addrs|])
  }

  function After(n: nat, target: nat): nat {
    if n == 0 then target else (target + 1) % n
  }

  ghost function Selected(s: State, now: Time): Option<Address> {
    if |s.addresses| == 1 then Some(Minimum(s.addresses)) else Pick(Sorted(Available(s, now)), s.nextTarget)
  }

  ghost function AfterGet(s: State, now: Time): State {
    s.(blacklist := Purge(s.blacklist, now),
       nextTarget := if |s.addresses| == 1 then s.nextTarget else After(|Available(s, now)|, s.nextTarget))
  }

  /** sort.Strings, by insertion. */
  method SortStrings(xs: seq<Address>) returns (r: seq<Address>)
    requires forall i, j :: 0 <= i < j < |xs| ==> xs[i] != xs[j]
    ensures r == Sorted(ToSet(xs))
  {
    r := [];
    for i := 0 to |xs|
      invariant r == Sorted(ToSet(xs[..i]))
    {
      ToSetSnoc(xs, i);
      r := Insert(ToSet(xs[..i]), r, xs[i]);
    }
    assert xs[..|xs|] == xs;
  }

  lemma ToSetSnoc(xs: seq<Address>, i: nat)
    requires i < |xs| && forall j :: 0 <= j < i ==> xs[j] != xs[i]
    ensures xs[i] !in ToSet(xs[..i]) && ToSet(xs[..i + 1]) == ToSet(xs[..i]) + {xs[i]}
  {
    assert xs[..i + 1][..i] == xs[..i];
    InToSet(xs[..i], xs[i]);
  }

  method Insert(ghost s: set<Address>, r: seq<Address>, x: Address) returns (r': seq<Address>)
    requires r == Sorted(s) && x !in s
    ensures r' == Sorted(s + {x})
  {
    var k := 0;
    while k < |r| && Leq(r[k], x)
      invariant k <= |r| && forall j :: 0 <= j < k ==> Leq(r[j], x)
    {
      k := k + 1;
    }
    InsertSorted(s, x, k);
    r' := r[..k] + [x] + r[k..];
  }

  /** There is only one increasing list of a set. */
  lemma {:induction false} SortedUnique(s: set<Address>, r: seq<Address>)
    requires Increasing(r) && forall a :: a in s <==> a in r
    ensures r == Sorted(s)
  {
    if r == [] {
      assert s == {};
    } else {
      assert r[0] in s;
      var m := Minimum(s);
      FirstIsLeast(s, r, m);
      assert r == [m] + r[1..];
      SortedUnique(s - {m}, r[1..]);
    }
  }

  lemma FirstIsLeast(s: set<Address>, r: seq<Address>, m: Address)
    requires Increasing(r) && Least(s, m) && forall a :: a in s <==> a in r
    ensures r != [] && r[0] == m && Increasing(r[1..])
    ensures forall a :: a in s - {m} <==> a in r[1..]
  {
    var k :| 0 <= k < |r| && r[k] == m;
    assert r[0] in s;
    if k > 0 {
      assert Below(r, 0, k);
      LeqAntisymmetric(m, r[0]);
    }
    forall i, j | 0 <= i < j < |r[1..]| ensures Below(r[1..], i, j) {
      assert Below(r, i + 1, j + 1);
    }
    forall i | 0 < i < |r| ensures r[i] != m {
      assert Below(r, 0, i);
    }
    assert r == [m] + r[1..];
  }

  lemma LeqTail(r: seq<Address>, x: Address, k: nat)
    requires Increasing(r) && k < |r| && !Leq(r[k], x)
    ensures forall j :: k <= j < |r| ==> Leq(x, r[j])
  {
    LeqTotal(x, r[k]);
    forall j | k < j < |r| ensures Leq(x, r[j]) {
      assert Below(r, k, j);
      LeqTransitive(x, r[k], r[j]);
    }
  }

  lemma IncreasingInsert(r: seq<Address>, x: Address, k: nat)
    requires Increasing(r) && x !in r && k <= |r|
    requires forall j :: 0 <= j < k ==> Leq(r[j], x)
    requires forall j :: k <= j < |r| ==> Leq(x, r[j])
    ensures Increasing(r[..k] + [x] + r[k..])
  {
    var r' := r[..k] + [x] + r[k..];
    forall i, j | 0 <= i < j < |r'| ensures Below(r', i, j) {
      if i != k && j != k {
        assert Below(r, if i < k then i else i - 1, if j < k then j else j - 1);
      }
    }
  }

  lemma ListsInsert(s: set<Address>, r: seq<Address>, x: Address, k: nat)
    requires Lists(r, s) && x !in s && k <= |r|
    ensures forall a :: a in s + {x} <==> a in r[..k] + [x] + r[k..]
  {
    assert r == r[..k] + r[k..];
  }

  lemma InsertSorted(s: set<Address>, x: Address, k: nat)
    requires x !in s && k <= |Sorted(s)|
    requires forall j :: 0 <= j < k ==> Leq(Sorted(s)[j], x)
    requires k < |Sorted(s)| ==> !Leq(Sorted(s)[k], x)
    ensures Sorted(s + {x}) == Sorted(s)[..k] + [x] + Sorted(s)[k..]
  {
    var r := Sorted(s);
    if k < |r| {
      LeqTail(r, x, k);
    }
    IncreasingInsert(r, x, k);
    ListsInsert(s, r, x, k);
    SortedUnique(s + {x}, r[..k] + [x] + r[k..]);
  }

  class RuntimeAddressSet {
    var addresses: set<Address>
    var blacklistedAddresses: map<Address, Time>
    var nextTarget: nat

    ghost function Now(): State
      reads this
    {
      State(addresses, blacklistedAddresses, nextTarget)
    }

    constructor ()
      ensures Now() == INIT
    {
      addresses, blacklistedAddresses, nextTarget := {}, map[], 0;
    }

    method Add(a: Address)
      modifies this
      ensures Now() == Apply(old(Now()), OpAdd(a))
    {
      addresses := addresses + {a};
    }

    method Remove(a: Address)
      modifies this
      ensures Now() == Apply(old(Now()), OpRemove(a))
    {
      addresses := addresses - {a};
    }

    method BlacklistAddress(a: Address, now: Time)
      modifies this
      ensures Now() == Apply(old(Now()), OpBlacklist(a, now))
    {
      blacklistedAddresses := blacklistedAddresses[a := now];
    }

    method Get(now: Time) returns (r: Option<Address>)
      modifies this
      ensures r == Selected(old(Now()), now)
      ensures Now() == Apply(old(Now()), OpGet(now))
    {
      PurgeBlacklist(now);
      if |addresses| == 1 {
        var a :| a in addresses;
        SingletonIs(addresses, a);
        return Some(a);
      }
      var addrs := NotBlacklisted();
      assert ToSet(addrs) == Available(old(Now()), now);
      addrs := SortStrings(addrs);
      r := Take(addrs);
    }

    /** Round robin over the sorted addresses. */
    method Take(addrs: seq<Address>) returns (r: Option<Address>)
      modifies this
      ensures r == Pick(addrs, old(nextTarget)) && nextTarget == After(|addrs|, old(nextTarget))
      ensures addresses == old(addresses) && blacklistedAddresses == old(blacklistedAddresses)
    {
      if |addrs| == 0 {
        return None;
      }
      var i := nextTarget % |addrs|;
      nextTarget := (nextTarget + 1) % |addrs|;
      return Some(addrs[i]);
    }

    /** In no particular order. */
    method NotBlacklisted() returns (addrs: seq<Address>)
      ensures forall i, j :: 0 <= i < j < |addrs| ==> addrs[i] != addrs[j]
      ensures ToSet(addrs) == addresses - blacklistedAddresses.Keys
    {
      var rest := addresses;
      addrs := [];
      while rest != {}
        invariant rest <= addresses
        invariant forall i, j :: 0 <= i < j < |addrs| ==> addrs[i] != addrs[j]
        invariant ToSet(addrs) == addresses - blacklistedAddresses.Keys - rest
        decreases rest
      {
        var a :| a in rest;
        rest := rest - {a};
        if a !in blacklistedAddresses {
          InToSet(addrs, a);
          assert (addrs + [a])[..|addrs|] == addrs;
          addrs := addrs + [a];
        }
      }
    }

    method PurgeBlacklist(now: Time)
      modifies this
      ensures Now() == old(Now()).(blacklist := Purge(old(blacklistedAddresses), now))
    {
      var rest := blacklistedAddresses.Keys;
      while rest != {}
        invariant rest <= old(blacklistedAddresses).Keys
        invariant addresses == old(addresses) && nextTarget == old(nextTarget)
        invariant blacklistedAddresses == map a | a in old(blacklistedAddresses)
          && (a in rest || now - old(blacklistedAddresses)[a] < BLACKLIST_DURATION) :: old(blacklistedAddresses)[a]
        decreases rest
      {
        var a :| a in rest;
        if now - blacklistedAddresses[a] >= BLACKLIST_DURATION {
          blacklistedAddresses := blacklistedAddresses - {a};
        }
        rest := rest - {a};
      }
    }
  }

  lemma SingletonIs(s: set<Address>, a: Address)
    requires |s| == 1 && a in s
    ensures s == {a}
  {
    assert |s - {a}| == 0;
  }

  // ---------------------------------------------------------------------------------------------
  // Round robin.

  /** Consecutive gets at the times `nows` returning `got`, each with the same available addresses; in
      between, other calls may change anything but the target. */
  ghost predicate Gets(states: seq<State>, nows: seq<Time>, got: seq<Option<Address>>, avail: set<Address>) {
    && |states| == |nows| == |got|
    && forall i :: 0 <= i < |nows| ==> GetsAt(states, nows, got, avail, i)
  }

  ghost predicate GetsAt(states: seq<State>, nows: seq<Time>, got: seq<Option<Address>>, avail: set<Address>, i: nat)
    requires i < |states| == |nows| == |got|
  {
    && |states[i].addresses| != 1 && Available(states[i], nows[i]) == avail
    && got[i] == Selected(states[i], nows[i])
    && (i > 0 ==> states[i].nextTarget == AfterGet(states[i - 1], nows[i - 1]).nextTarget)
  }

  /** The remainder, by repeated subtraction. */
  ghost function Rem(x: nat, n: nat): (r: nat)
    requires n > 0
    ensures r < n
  {
    if x < n then x else Rem(x - n, n)
  }

  lemma {:induction false} RemIsMod(x: nat, n: nat)
    requires n > 0
    ensures Rem(x, n) == x % n
  {
    if x >= n {
      RemIsMod(x - n, n);
      assert x % n == (x - n) % n by {
        assert x == n * (x / n) + x % n;
        ModUnique(x - n, n, x / n - 1, x % n);
      }
    }
  }

  lemma {:induction false} RemAdd(t: nat, j: nat, n: nat)
    requires n > 0
    ensures Rem(t + j, n) == Rem(Rem(t, n) + j, n)
  {
    if t >= n {
      RemAdd(t - n, j, n);
    }
  }

  lemma TargetStep(target: nat, next: nat, n: nat)
    requires n > 0 && next == After(n, target)
    ensures Rem(next, n) == Rem(Rem(target, n) + 1, n)
  {
    RemIsMod(target + 1, n);
    RemAdd(target, 1, n);
  }

  /** The answers go round a list, starting anywhere. */
  ghost predicate Cyclic(got: seq<Option<Address>>, r: seq<Address>, t: nat) {
    r != [] && forall i :: 0 <= i < |got| ==> got[i] == Some(r[Rem(t + i, |r|)])
  }

  lemma TargetAdvances(states: seq<State>, nows: seq<Time>, got: seq<Option<Address>>, avail: set<Address>, i: nat)
    requires Gets(states, nows, got, avail) && 0 < i < |nows|
    ensures states[i].nextTarget == After(|avail|, states[i - 1].nextTarget)
  {
    assert GetsAt(states, nows, got, avail, i - 1) && GetsAt(states, nows, got, avail, i);
  }

  lemma {:induction false} TargetAt(states: seq<State>, nows: seq<Time>, got: seq<Option<Address>>, avail: set<Address>, i: nat)
    requires Gets(states, nows, got, avail) && i < |nows| && avail != {}
    ensures Rem(states[i].nextTarget, |avail|) == Rem(states[0].nextTarget + i, |avail|)
  {
    if i > 0 {
      TargetAt(states, nows, got, avail, i - 1);
      TargetAdvances(states, nows, got, avail, i);
      TargetStep(states[i - 1].nextTarget, states[i].nextTarget, |avail|);
      RemAdd(states[0].nextTarget + i - 1, 1, |avail|);
    }
  }

  lemma GetsAreCyclic(states: seq<State>, nows: seq<Time>, got: seq<Option<Address>>, avail: set<Address>)
    requires Gets(states, nows, got, avail) && avail != {} && |got| > 0
    ensures Cyclic(got, Sorted(avail), states[0].nextTarget)
  {
    var r := Sorted(avail);
    forall i | 0 <= i < |got| ensures got[i] == Some(r[Rem(states[0].nextTarget + i, |r|)]) {
      TargetAt(states, nows, got, avail, i);
      assert GetsAt(states, nows, got, avail, i);
      RemIsMod(states[i].nextTarget, |r|);
    }
  }

  ghost predicate Hits(t: nat, j: nat, n: nat, k: nat)
    requires n > 0
  {
    Rem(t + j, n) == k
  }

  /** Among n consecutive numbers exactly one has a given remainder. */
  lemma OneOfWindow(t: nat, n: nat, k: nat) returns (i: nat)
    requires k < n
    ensures i < n && forall j :: 0 <= j < n ==> (Hits(t, j, n, k) <==> i == j)
  {
    var r := Rem(t, n);
    i := if k >= r then k - r else k + n - r;
    forall j | 0 <= j < n ensures Hits(t, j, n, k) <==> i == j {
      RemAdd(t, j, n);
      if r + j < n {
        assert Rem(r + j, n) == r + j;
      } else {
        assert Rem(r + j - n, n) == r + j - n == Rem(r + j, n);
      }
    }
  }

  ghost predicate Once(got: seq<Option<Address>>, a: Address, at: nat, from: nat, to: nat)
    requires to <= |got|
  {
    forall i :: from <= i < to ==> (got[i] == Some(a) <==> i == at)
  }

  lemma OncePerCycle(got: seq<Option<Address>>, r: seq<Address>, t: nat, a: Address, from: nat, to: nat) returns (at: nat)
    requires Cyclic(got, r, t) && Increasing(r) && a in r && from <= to <= |got| && to <= from + |r|
    ensures from <= at < from + |r| && Once(got, a, at, from, to)
  {
    var k: nat :| k < |r| && r[k] == a;
    var i := OneOfWindow(t + from, |r|, k);
    at := from + i;
    forall j | from <= j < to ensures got[j] == Some(a) <==> j == at {
      var x := Rem(t + j, |r|);
      assert Hits(t + from, j - from, |r|, k) <==> x == k;
      assert x < k ==> Below(r, x, k);
      assert k < x ==> Below(r, k, x);
    }
  }

  /** Any n consecutive gets select each of the n available addresses exactly once, wherever the target
      stands at first. */
  lemma EachOncePerRound(states: seq<State>, nows: seq<Time>, got: seq<Option<Address>>, avail: set<Address>,
                         a: Address, from: nat) returns (at: nat)
    requires Gets(states, nows, got, avail) && a in avail && from + |avail| <= |got|
    ensures from <= at < from + |avail| && Once(got, a, at, from, from + |avail|)
  {
    GetsAreCyclic(states, nows, got, avail);
    at := OncePerCycle(got, Sorted(avail), states[0].nextTarget, a, from, from + |avail|);
  }

  /** How often an address was selected. */
  function Uses(got: seq<Option<Address>>, a: Address): nat {
    if got == [] then 0 else Uses(got[..|got| - 1], a) + (if got[|got| - 1] == Some(a) then 1 else 0)
  }

  lemma {:induction false} UsesOnce(got: seq<Option<Address>>, a: Address, at: nat, from: nat)
    requires from <= |got| && from <= at && Once(got, a, at, from, |got|)
    ensures Uses(got, a) == Uses(got[..from], a) + (if at < |got| then 1 else 0)
  {
    var n := |got|;
    if from < n {
      assert Once(got[..n - 1], a, at, from, n - 1);
      UsesOnce(got[..n - 1], a, at, from);
      assert got[..n - 1][..from] == got[..from];
      assert got[n - 1] == Some(a) <==> n - 1 == at;
    } else {
      assert got[..from] == got;
    }
  }

  lemma {:induction false} CyclicIsFair(got: seq<Option<Address>>, r: seq<Address>, t: nat, a: Address, b: Address)
    requires Cyclic(got, r, t) && Increasing(r) && a in r && b in r
    ensures Uses(got, a) <= Uses(got, b) + 1
    decreases |got|
  {
    var from := if |got| < |r| then 0 else |got| - |r|;
    var i := OncePerCycle(got, r, t, a, from, |got|);
    var j := OncePerCycle(got, r, t, b, from, |got|);
    UsesOnce(got, a, i, from);
    UsesOnce(got, b, j, from);
    if from > 0 || |got| == |r| {
      assert Cyclic(got[..from], r, t);
      CyclicIsFair(got[..from], r, t, a, b);
    }
  }

  /** After any number of gets, the use counts of two available addresses differ by at most one. */
  lemma UseCountsAreFair(states: seq<State>, nows: seq<Time>, got: seq<Option<Address>>, avail: set<Address>,
                         a: Address, b: Address)
    requires Gets(states, nows, got, avail) && a in avail && b in avail
    ensures Uses(got, a) <= Uses(got, b) + 1
  {
    if got != [] {
      GetsAreCyclic(states, nows, got, avail);
      CyclicIsFair(got, Sorted(avail), states[0].nextTarget, a, b);
    }
  }

  // ---------------------------------------------------------------------------------------------
  // The blacklist, over whole runs.

  datatype Op = OpAdd(a: Address) | OpRemove(a: Address) | OpBlacklist(a: Address, now: Time) | OpGet(now: Time)

  ghost function Apply(s: State, op: Op): State {
    match op
    case OpAdd(a) => s.(addresses := s.addresses + {a})
    case OpRemove(a) => s.(addresses := s.addresses - {a})
    case OpBlacklist(a, now) => s.(blacklist := s.blacklist[a := now])
    case OpGet(now) => AfterGet(s, now)
  }

  ghost function Exec(ops: seq<Op>): State {
    if ops == [] then INIT else Apply(Exec(ops[..|ops| - 1]), ops[|ops| - 1])
  }

  predicate Timed(op: Op) {
    op.OpBlacklist? || op.OpGet?
  }

  /** Times do not run backwards, and `now` is not before any of them. */
  ghost predicate Ordered(ops: seq<Op>, now: Time) {
    && (forall i :: 0 <= i < |ops| && Timed(ops[i]) ==> ops[i].now <= now)
    && (forall i, j :: 0 <= i < j < |ops| && Timed(ops[i]) && Timed(ops[j]) ==> ops[i].now <= ops[j].now)
  }

  /** When an address was last blacklisted, if ever. */
  function LastBlacklisted(ops: seq<Op>, a: Address): Option<Time> {
    if ops == [] then None
    else
      var last := ops[|ops| - 1];
      if last.OpBlacklist? && last.a == a then Some(last.now) else LastBlacklisted(ops[..|ops| - 1], a)
  }

  function Member(ops: seq<Op>, a: Address): bool {
    if ops == [] then false
    else
      var last := ops[|ops| - 1];
      if last.OpAdd? && last.a == a then true
      else if last.OpRemove? && last.a == a then false
      else Member(ops[..|ops| - 1], a)
  }

  predicate Recent(t: Option<Time>, now: Time) {
    t.Some? && now - t.value < BLACKLIST_DURATION
  }

  /** Forgetting expired entries is never noticed: an address is available exactly when it is a member
      and was not blacklisted within the duration. */
  lemma {:induction false} AvailableIsHistory(ops: seq<Op>, now: Time, a: Address)
    requires Ordered(ops, now)
    ensures a in Exec(ops).addresses <==> Member(ops, a)
    ensures a in Purge(Exec(ops).blacklist, now) <==> Recent(LastBlacklisted(ops, a), now)
    ensures a in Available(Exec(ops), now) <==> Member(ops, a) && !Recent(LastBlacklisted(ops, a), now)
  {
    EntriesAreHistory(ops, now, a);
  }

  lemma {:induction false} EntriesAreHistory(ops: seq<Op>, now: Time, a: Address)
    requires Ordered(ops, now)
    ensures a in Exec(ops).addresses <==> Member(ops, a)
    ensures a in Exec(ops).blacklist ==> LastBlacklisted(ops, a) == Some(Exec(ops).blacklist[a])
    ensures a !in Exec(ops).blacklist ==> !Recent(LastBlacklisted(ops, a), now)
  {
    if ops != [] {
      var before, last := ops[..|ops| - 1], ops[|ops| - 1];
      EntriesAreHistory(before, if Timed(last) then last.now else now, a);
    }
  }

  /** An address blacklisted within the duration is selected only as the sole member, and nothing is
      selected exactly when there is no address, or several that are all blacklisted. */
  lemma SelectedIsHistory(ops: seq<Op>, now: Time, a: Address)
    requires Ordered(ops, now)
    ensures var s := Exec(ops);
            && (Selected(s, now) == Some(a) ==> Member(ops, a))
            && (Selected(s, now) == Some(a) && Recent(LastBlacklisted(ops, a), now) ==> s.addresses == {a})
            && (Selected(s, now) == None && Member(ops, a) ==> Recent(LastBlacklisted(ops, a), now) && s.addresses != {a})
  {
    AvailableIsHistory(ops, now, a);
    var s := Exec(ops);
    var r := Sorted(Available(s, now));
    if |s.addresses| == 1 {
      SingletonIs(s.addresses, Minimum(s.addresses));
    } else if r != [] {
      assert r[s.nextTarget % |r|] in r;
    }
  }
}
