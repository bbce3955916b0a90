/** Small datatypes and helpers shared by the other modules. */
module Common {

  datatype Option<+T> = None | Some(value: T)

  function Lookup<K, V>(m: map<K, V>, k: K): Option<V> {
    if k in m then Some(m[k]) else None
  }

  function Max(a: real, b: real): real {
    if a < b then b else a
  }

  function Min(a: real, b: real): real {
    if a < b then a else b
  }

  function Ceil(x: real): (n: int)
    ensures x <= n as real < x + 1.0
  {
    -((-x).Floor)
  }

  /** Quotient and remainder are unique. */
  lemma ModUnique(x: int, n: int, q: int, r: int)
    requires 0 <= r < n && x == n * q + r
    ensures x % n == r
  {
    assert n * (q - x / n) == x % n - r;
    MultipleBelow(n, q - x / n);
  }

  lemma MultipleBelow(n: int, d: int)
    requires -n < n * d < n
    ensures d == 0
  {
  }

  lemma ProductSign(x: real, y: real)
    requires y > 0.0
    ensures x * y > 0.0 <==> x > 0.0
    ensures x * y < 0.0 <==> x < 0.0
  {
  }

  lemma QuotientSign(x: real, y: real)
    requires y > 0.0
    ensures x / y * y == x
    ensures x / y < 0.0 <==> x < 0.0
  {
    ProductSign(x / y, y);
  }
}
