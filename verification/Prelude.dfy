/** Option and Result, shared by every module of the model. */
module Prelude {
  datatype Option<+T> = None | Some(value: T) {
    /** The value, or `default` when there is none (the `??` of the source). */
    function GetOr(default: T): T {
      if Some? then value else default
    }
  }

  datatype Result<+T, +E> = Ok(value: T) | Err(error: E)

  function Min(x: int, y: int): int {
    if x < y then x else y
  }

  function Max(x: int, y: int): int {
    if x < y then y else x
  }

  /** A non-zero multiple is at least as far from zero. */
  lemma MultiplesSpread(n: int, d: int)
    requires 0 < n
    ensures d >= 1 ==> n <= n * d
    ensures d <= -1 ==> n * d <= -n
  {
    if d >= 1 {
      assert n * d == n + n * (d - 1);
    } else if d <= -1 {
      assert n * d == -n + n * (d + 1);
    }
  }

  /** The only multiple strictly between -n and n. */
  lemma OnlyZeroBetween(n: int, d: int)
    requires 0 < n && -n < n * d < n
    ensures d == 0
  {
    MultiplesSpread(n, d);
  }

  /** Division has one quotient and one remainder. */
  lemma RemainderOf(q: nat, r: nat, n: nat)
    requires r < n
    ensures (n * q + r) % n == r
  {
    var x := n * q + r;
    assert x == n * (x / n) + x % n;
    assert n * (x / n) - n * q == n * (x / n - q);
    OnlyZeroBetween(n, x / n - q);
  }

  /** The remainder of a number below twice the divisor. */
  lemma Wrapped(x: nat, n: nat)
    requires 0 < n && x < 2 * n
    ensures x % n == if x < n then x else x - n
  {
    if x < n {
      RemainderOf(0, x, n);
    } else {
      RemainderOf(1, x - n, n);
    }
  }
}
